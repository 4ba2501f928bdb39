/**
 The request handlers working on the text store. Each is proved to do to the store, and to
 answer, what its step of the broker's state machine says. The ghost `w` is the state the
 store stands for.
 */
module BrokerHandlers {
  import opened Broker
  import opened BrokerInvariant
  import opened BrokerRuns
  import opened Decimal
  import opened Outcomes
  import opened Paths
  import opened Protocol
  import opened Pruning
  import opened Records
  import opened Retention
  import opened Stores
  import BrokerAnswers
  import CommandLine
  import CriuCommand
  import ExtraArgs
  import Processes
  import PruneRun

  /** The store holds `w`, whose ids include those this request may hand out. */
  ghost predicate Serves(store: Store, cfg: BrokerConfig, w: World, i: Input)
    reads store
  {
    && store.Valid() && store.View() == w.store && store.root == cfg.root && Inv(w) && RootOk(cfg)
    && IsUser(i.peer.uid) && i.peer.gid < TWO_32
    && -TWO_63 <= i.env.started < TWO_63 && -TWO_63 <= i.env.finished < TWO_63
    && (i.env.launched.Some? ==> -TWO_31 <= i.env.launched.value.0 < TWO_31)
    && SafeId(i.env.freshJob) && SafeId(i.env.freshCheckpoint)
    && {i.env.freshJob, i.env.freshCheckpoint} <= w.issued && Unused(w.store, i)
    && TableOk(i.env.table)
  }

  /** The request as it turned out: its prune, if any, ran to its end or was cut short. */
  function CutAt(i: Input, cut: Option<Cut>): Input {
    i.(env := i.env.(cut := cut))
  }

  // ---- Saving what a step changed ----------------------------------------------------------------

  /** Save a job whose record is in order. */
  method SaveKnownJob(store: Store, job: JobRecord)
    requires store.Valid() && JobOk(job, KeyOf(job))
    modifies store
    ensures store.Valid() && store.View() == PutJob(old(store.View()), job)
  {
    var saved := store.SaveJob(job);
    assert saved.Ok?;
  }

  method SaveKnownCheckpoint(store: Store, job: JobRecord, ghost k: CheckpointKey, c: CheckpointRecord,
                             ghost served: nat)
    requires store.Valid() && IsUser(job.ownerUid) && SafeId(job.jobId)
    requires CheckpointOk(c, k, served) && k == CheckpointKeyOf(job, c.checkpointId)
    modifies store
    ensures store.Valid() && store.View() == PutCheckpoint(old(store.View()), k, c)
  {
    var saved := store.SaveCheckpoint(job, c);
    assert saved.Ok?;
  }

  /** Look at the process again, and save the job only when its state changed. */
  method UpdateJobLiveness(store: Store, job: JobRecord, table: Processes.Snapshot) returns (seen: JobRecord)
    requires store.Valid() && JobOk(job, KeyOf(job))
    modifies store
    ensures store.Valid() && (store.View(), seen) == Observe(old(store.View()), table, job)
  {
    seen := job;
    var state := "exited";
    var safe := Processes.ProcessMatchesPeerSecurity(table, job.pid, job.ownerUid, job.ownerGid, job.startTimeTicks);
    if safe {
      state := "running";
    } else if Processes.JobIdentity(table, job) {
      state := "unsafe";
    } else if Processes.Alive(table, job.pid) {
      state := "stale";
    }
    if job.state != state {
      seen := job.(state := state);
      ObservedOk(table, job, KeyOf(job));
      SaveKnownJob(store, seen);
    }
  }

  // ---- run and status ------------------------------------------------------------------------------

  method HandleRun(store: Store, cfg: BrokerConfig, i: Input, ghost w: World) returns (reply: Reply)
    requires Serves(store, cfg, w, i)
    modifies store
    ensures store.Valid() && Outcome(store.View(), reply) == RunRequest(w.store, i)
  {
    var args, cwd := i.request.GetAll("arg"), i.request.Get("cwd");
    if args == [] || !CriuCommand.IsAbsolute(args[0]) || !CriuCommand.IsAbsolute(cwd) || i.env.launched.None? {
      return Refused("launch failed");
    }
    var line := CommandLine.JoinCommandLine(args);
    var job := JobRecord(i.env.freshJob, i.peer.uid, i.peer.gid, i.env.launched.value.0, i.env.launched.value.1,
                         args[0], cwd, line, "running", ToString(i.env.started), "");
    var saved := store.SaveJob(job);
    reply := if saved.Ok? then Accepted(KeyOf(job), "") else Refused("job not saved");
  }

  method HandleStatus(store: Store, cfg: BrokerConfig, i: Input, ghost w: World) returns (reply: Reply)
    requires Serves(store, cfg, w, i)
    modifies store
    ensures store.Valid() && Outcome(store.View(), reply) == StatusRequest(w.store, i)
  {
    var loaded := store.LoadJob(i.peer.uid, i.request.Get("job_id"));
    if loaded.Err? {
      return Refused("job not found");
    }
    var job := UpdateJobLiveness(store, loaded.value, i.env.table);
    reply := Accepted(KeyOf(job), job.latestCheckpoint);
  }

  // ---- checkpoint and checkpoint-pid ---------------------------------------------------------------

  /** Record a worker's result with the size measured again, and export what the worker left. */
  method RecordResult(store: Store, job: JobRecord, k: CheckpointKey, c: CheckpointRecord, ghost served: nat)
    requires store.Valid() && IsUser(job.ownerUid) && SafeId(job.jobId)
    requires CheckpointOk(c, k, served) && k == CheckpointKeyOf(job, c.checkpointId)
    modifies store
    ensures store.Valid() && store.View() == PutExport(PutCheckpoint(old(store.View()), k, c), k)
  {
    SaveKnownCheckpoint(store, job, k, c, served);
    store.ExportCheckpointArtifacts(k);
  }

  /** What a successful dump saves before pruning: the checkpoint, the job that points to it, the export. */
  ghost function DumpSaved(s: State, job: JobRecord, k: CheckpointKey, c: CheckpointRecord, env: Env): State {
    var ready := PutCheckpoint(s, k, WithState(c, "ready", env.size));
    PutExport(PutJob(ready, job.(latestCheckpoint := k.checkpointId)), k)
  }

  lemma DumpSavedKeeps(w: World, job: JobRecord, k: CheckpointKey, c: CheckpointRecord, env: Env)
    requires Inv(w) && k in w.store.checkpoints && w.store.checkpoints[k] == c && w.store.jobs[k.Job()] == job
    ensures Inv(w.(store := DumpSaved(w.store, job, k, c, env)))
  {
    ResultKeeps(w, k, c, "ready", env.size);
    DoneKeeps(w.(store := PutCheckpoint(w.store, k, WithState(c, "ready", env.size))), k);
  }

  method SaveDump(store: Store, job: JobRecord, k: CheckpointKey, c: CheckpointRecord, env: Env, ghost served: nat)
    requires store.Valid() && JobOk(job, KeyOf(job)) && CheckpointOk(c, k, served)
    requires k == CheckpointKeyOf(job, c.checkpointId)
    modifies store
    ensures store.Valid() && store.View() == DumpSaved(old(store.View()), job, k, c, env)
  {
    ResultLineFree("ready");
    WithStateOk(c, k, "ready", env.size, served);
    SaveKnownCheckpoint(store, job, k, WithState(c, "ready", env.size), served);
    SafeIdIsComponent(k.checkpointId);
    SaveKnownJob(store, job.(latestCheckpoint := k.checkpointId));
    store.ExportCheckpointArtifacts(k);
  }

  /** The result of a dump: the job points to the new checkpoint, and older ones are pruned. */
  method RecordReady(store: Store, cfg: BrokerConfig, job: JobRecord, k: CheckpointKey, c: CheckpointRecord, env: Env,
                     script: PruneRun.Script, ghost w: World)
    returns (rest: PruneRun.Script, ghost cut: Option<Cut>)
    requires store.Valid() && store.View() == w.store && Inv(w)
    requires k in w.store.checkpoints && w.store.checkpoints[k] == c && w.store.jobs[k.Job()] == job
    modifies store
    ensures store.Valid()
    ensures store.View() == PruneAfter(cfg, DumpSaved(w.store, job, k, c, env),
                                       job.(latestCheckpoint := k.checkpointId), k.checkpointId, env.(cut := cut))
    ensures script == [] ==> rest == [] && cut == None
  {
    DumpSavedKeeps(w, job, k, c, env);
    SaveDump(store, job, k, c, env, w.served);
    InvPrunable(w.(store := DumpSaved(w.store, job, k, c, env)));
    var removed;
    removed, rest, cut := PruneRun.PruneCheckpoints(
      store, Policy(cfg.retention, env.finished, job.jobId, k.checkpointId), env.measure, script);
  }

  /** What the worker's result makes of a created checkpoint. */
  ghost function DumpResult(cfg: BrokerConfig, s: State, job: JobRecord, k: CheckpointKey, c: CheckpointRecord,
                            env: Env): Outcome
  {
    if !env.workerSucceeds then
      Refuse(PutExport(PutCheckpoint(s, k, WithState(c, "failed", env.size)), k), "checkpoint_failed")
    else
      var latest := job.(latestCheckpoint := k.checkpointId);
      Outcome(PruneAfter(cfg, DumpSaved(s, job, k, c, env), latest, k.checkpointId, env),
              Accepted(KeyOf(job), k.checkpointId))
  }

  /** A dump is the created record, then a refusal or the worker's result. */
  lemma DumpIs(cfg: BrokerConfig, s: State, job: JobRecord, i: Input, safe: bool, cut: Option<Cut>,
               k: CheckpointKey, c: CheckpointRecord)
    requires k == CheckpointKeyOf(job, i.env.freshCheckpoint) && c == NewCheckpoint(cfg.root, job, i.env)
    ensures var begun := PutCheckpoint(s, k, c);
            Dump(cfg, s, job, CutAt(i, cut), safe) ==
            if !ExtraArgs.Accepts(i.request.GetAll("extra_arg")) then Refuse(begun, "unsafe CRIU argument")
            else if !safe then Refuse(begun, "target is not safe to checkpoint")
            else DumpResult(cfg, begun, job, k, c, i.env.(cut := cut))
  {
    assert NewCheckpoint(cfg.root, job, CutAt(i, cut).env) == c;
  }

  method RecordDump(store: Store, cfg: BrokerConfig, job: JobRecord, k: CheckpointKey, c: CheckpointRecord, env: Env,
                    script: PruneRun.Script, ghost w: World)
    returns (reply: Reply, rest: PruneRun.Script, ghost cut: Option<Cut>)
    requires store.Valid() && store.View() == w.store && Inv(w)
    requires k in w.store.checkpoints && w.store.checkpoints[k] == c && w.store.jobs[k.Job()] == job
    modifies store
    ensures store.Valid() && Outcome(store.View(), reply) == DumpResult(cfg, w.store, job, k, c, env.(cut := cut))
    ensures script == [] ==> rest == [] && cut == None
  {
    rest, cut := script, None;
    if !env.workerSucceeds {
      ResultLineFree("failed");
      WithStateOk(c, k, "failed", env.size, w.served);
      RecordResult(store, job, k, WithState(c, "failed", env.size), w.served);
      return Refused("checkpoint_failed"), rest, cut;
    }
    rest, cut := RecordReady(store, cfg, job, k, c, env, script, w);
    reply := Accepted(KeyOf(job), k.checkpointId);
  }

  /** Both checkpoint requests from the created record on. A prune that throws does not fail the request. */
  method RunDump(store: Store, cfg: BrokerConfig, job: JobRecord, i: Input, safe: bool, script: PruneRun.Script,
                 ghost w: World) returns (reply: Reply, rest: PruneRun.Script, ghost cut: Option<Cut>)
    requires store.Valid() && store.View() == w.store && Inv(w) && RootOk(cfg)
    requires KeyOf(job) in w.store.jobs && w.store.jobs[KeyOf(job)] == job && i.env.freshCheckpoint in w.issued
    requires forall c :: c in w.store.checkpoints ==> c.checkpointId != i.env.freshCheckpoint
    requires SafeId(i.env.freshCheckpoint) && -TWO_63 <= i.env.started < TWO_63
    modifies store
    ensures store.Valid() && Outcome(store.View(), reply) == Dump(cfg, w.store, job, CutAt(i, cut), safe)
    ensures BrokerAnswers.DumpReply(w.store, Outcome(store.View(), reply),
                                    CheckpointKeyOf(job, i.env.freshCheckpoint), CutAt(i, cut).env)
    ensures script == [] ==> rest == [] && cut == None
  {
    rest, cut := script, None;
    var k, created := CheckpointKeyOf(job, i.env.freshCheckpoint), NewCheckpoint(cfg.root, job, i.env);
    ghost var begun := w.(store := PutCheckpoint(w.store, k, created));
    BeginDump(store, cfg, job, k, created, i, w);
    reply, rest, cut := CheckAndDump(store, cfg, job, k, created, i, safe, script, begun);
    DumpIs(cfg, w.store, job, i, safe, cut, k, created);
    BrokerAnswers.DumpReplied(cfg, w, KeyOf(job), CutAt(i, cut), safe);
  }

  method CheckAndDump(store: Store, cfg: BrokerConfig, job: JobRecord, k: CheckpointKey, c: CheckpointRecord, i: Input,
                      safe: bool, script: PruneRun.Script, ghost w: World)
    returns (reply: Reply, rest: PruneRun.Script, ghost cut: Option<Cut>)
    requires store.Valid() && store.View() == w.store && Inv(w)
    requires k in w.store.checkpoints && w.store.checkpoints[k] == c && w.store.jobs[k.Job()] == job
    modifies store
    ensures store.Valid()
    ensures Outcome(store.View(), reply) ==
            if !ExtraArgs.Accepts(i.request.GetAll("extra_arg")) then Refuse(w.store, "unsafe CRIU argument")
            else if !safe then Refuse(w.store, "target is not safe to checkpoint")
            else DumpResult(cfg, w.store, job, k, c, i.env.(cut := cut))
    ensures script == [] ==> rest == [] && cut == None
  {
    rest, cut := script, None;
    var extra := ExtraArgs.ValidateExtraArgs(i.request.GetAll("extra_arg"));
    if extra.Err? {
      return Refused("unsafe CRIU argument"), rest, cut;
    } else if !safe {
      return Refused("target is not safe to checkpoint"), rest, cut;
    }
    reply, rest, cut := RecordDump(store, cfg, job, k, c, i.env, script, w);
  }

  /** The record saved before the worker starts. */
  method BeginDump(store: Store, cfg: BrokerConfig, job: JobRecord, k: CheckpointKey, c: CheckpointRecord, i: Input,
                   ghost w: World)
    requires store.Valid() && store.View() == w.store && Inv(w) && RootOk(cfg)
    requires KeyOf(job) in w.store.jobs && w.store.jobs[KeyOf(job)] == job && i.env.freshCheckpoint in w.issued
    requires forall d :: d in w.store.checkpoints ==> d.checkpointId != i.env.freshCheckpoint
    requires SafeId(i.env.freshCheckpoint) && -TWO_63 <= i.env.started < TWO_63
    requires k == CheckpointKeyOf(job, i.env.freshCheckpoint) && c == NewCheckpoint(cfg.root, job, i.env)
    modifies store
    ensures store.Valid() && store.View() == PutCheckpoint(w.store, k, c)
    ensures Inv(w.(store := PutCheckpoint(w.store, k, c)))
  {
    CreatedKeeps(cfg, w, KeyOf(job), i);
    ghost var begun := w.(store := PutCheckpoint(w.store, k, c));
    assert CheckpointOk(begun.store.checkpoints[k], k, w.served);
    SaveKnownCheckpoint(store, job, k, c, w.served);
  }

  method HandleCheckpoint(store: Store, cfg: BrokerConfig, i: Input, script: PruneRun.Script, ghost w: World)
    returns (reply: Reply, rest: PruneRun.Script, ghost cut: Option<Cut>)
    requires Serves(store, cfg, w, i)
    modifies store
    ensures store.Valid() && Outcome(store.View(), reply) == CheckpointRequest(cfg, w.store, CutAt(i, cut))
    ensures script == [] ==> rest == [] && cut == None
  {
    rest, cut := script, None;
    var loaded := store.LoadJob(i.peer.uid, i.request.Get("job_id"));
    if loaded.Err? {
      return Refused("job not found"), rest, cut;
    }
    ObserveKeeps(w, i.env.table, KeyOf(loaded.value));
    var job := UpdateJobLiveness(store, loaded.value, i.env.table);
    ghost var seen := w.(store := store.View());
    if job.state != "running" {
      return Refused("cannot checkpoint a non-running managed job"), rest, cut;
    }
    var safe := Processes.ProcessMatchesPeerSecurity(
      i.env.recheck, job.pid, job.ownerUid, job.ownerGid, job.startTimeTicks);
    if !safe {
      var again := UpdateJobLiveness(store, job, i.env.later);
      return Refused("managed job is not safe to checkpoint"), rest, cut;
    }
    reply, rest, cut := RunDump(store, cfg, job, i, true, script, seen);
  }

  method HandleCheckpointPid(store: Store, cfg: BrokerConfig, i: Input, script: PruneRun.Script, ghost w: World)
    returns (reply: Reply, rest: PruneRun.Script, ghost cut: Option<Cut>)
    requires Serves(store, cfg, w, i)
    modifies store
    ensures store.Valid() && Outcome(store.View(), reply) == CheckpointPidRequest(cfg, w.store, CutAt(i, cut))
    ensures script == [] ==> rest == [] && cut == None
  {
    rest, cut := script, None;
    var target := PidJob(i);
    SamePidJob(i);
    if target.None? {
      return Refused("checkpoint target is not a safe peer-owned process"), rest, cut;
    }
    var job := target.value;
    var saved := store.SaveJob(job);
    if saved.Err? {
      return Refused("job not saved"), rest, cut;
    }
    PidJobKeeps(w, i, job);
    var safe := Processes.ProcessMatchesPeerSecurity(
      i.env.recheck, job.pid, job.ownerUid, job.ownerGid, job.startTimeTicks);
    reply, rest, cut := RunDump(store, cfg, job, i, safe, script, w.(store := PutJob(w.store, job)));
  }

  /** The job made for a pid is settled before any prune. */
  lemma SamePidJob(i: Input)
    ensures forall cut :: PidJob(CutAt(i, cut)) == PidJob(i)
  {}

  // ---- restore -----------------------------------------------------------------------------------------

  /** After the worker succeeded: the process adopted, the use recorded, older checkpoints pruned. */
  method FinishRestore(store: Store, cfg: BrokerConfig, job: JobRecord, k: CheckpointKey, c: CheckpointRecord,
                       env: Env, script: PruneRun.Script, ghost w: World)
    returns (reply: Reply, rest: PruneRun.Script, ghost cut: Option<Cut>)
    requires store.Valid() && store.View() == w.store && Inv(w) && k in w.store.checkpoints
    requires w.store.checkpoints[k] == c && w.store.jobs[k.Job()] == job && TableOk(env.table)
    requires w.served > 0 && w.served < TWO_63 && CheckpointOk(c, k, w.served - 1)
    requires -TWO_63 <= env.finished < TWO_63 && env.workerSucceeds
    modifies store
    ensures store.Valid() && Outcome(store.View(), reply) == Restore(cfg, w.store, job, k, env.(cut := cut))
    ensures BrokerAnswers.RestoreReply(w.store, Outcome(store.View(), reply), k, env.(cut := cut))
    ensures script == [] ==> rest == [] && cut == None
  {
    rest, cut := script, None;
    var adopted := Adopted(job, env);
    if adopted.Err? {
      RestoreRefused(cfg, w.store, job, k, env, cut);
      BrokerAnswers.RestoreReplied(cfg, w, k, env.(cut := cut));
      return Refused(adopted.error), rest, cut;
    }
    var (now, pid) := adopted.value;
    UseSavedKeeps(w, k, env, now, pid);
    RecordUse(store, k, c, env, now, pid, w.served);
    InvPrunable(w.(store := UseSaved(w.store, k, c, env, now, pid)));
    var removed;
    removed, rest, cut := PruneRun.PruneCheckpoints(
      store, Policy(cfg.retention, env.finished, now.jobId, k.checkpointId), env.measure, script);
    RestoreIs(cfg, w.store, job, k, env, now, pid, cut);
    BrokerAnswers.RestoreReplied(cfg, w, k, env.(cut := cut));
    reply := Accepted(KeyOf(job), k.checkpointId);
  }

  /** What a successful restore saves before pruning: the adopted job, the use, the export. */
  ghost function UseSaved(s: State, k: CheckpointKey, c: CheckpointRecord, env: Env, now: JobRecord, pid: string)
    : State
  {
    var saved := if env.pidfile.Some? then PutJob(s, now) else s;
    PutExport(PutCheckpoint(saved, k, Touched(c, pid, env)), k)
  }

  /** A restore whose reported process was adopted: what it saved, then the prune as it turned out. */
  lemma RestoreIs(cfg: BrokerConfig, s: State, job: JobRecord, k: CheckpointKey, env: Env, now: JobRecord, pid: string,
                  cut: Option<Cut>)
    requires k in s.checkpoints && env.workerSucceeds && Adopted(job, env) == Ok((now, pid))
    ensures Restore(cfg, s, job, k, env.(cut := cut)) ==
            Outcome(PruneAfter(cfg, UseSaved(s, k, s.checkpoints[k], env, now, pid), now, k.checkpointId,
                               env.(cut := cut)),
                    Accepted(KeyOf(job), k.checkpointId))
  {
    var e := env.(cut := cut);
    assert Adopted(job, e) == Adopted(job, env);
    assert Touched(s.checkpoints[k], pid, e) == Touched(s.checkpoints[k], pid, env);
  }

  lemma RestoreRefused(cfg: BrokerConfig, s: State, job: JobRecord, k: CheckpointKey, env: Env, cut: Option<Cut>)
    requires k in s.checkpoints && env.workerSucceeds && Adopted(job, env).Err?
    ensures Restore(cfg, s, job, k, env.(cut := cut)) == Refuse(s, Adopted(job, env).error)
  {
    assert Adopted(job, env.(cut := cut)) == Adopted(job, env);
  }

  lemma UseSavedKeeps(w: World, k: CheckpointKey, env: Env, now: JobRecord, pid: string)
    requires Inv(w) && k in w.store.checkpoints && TableOk(env.table)
    requires w.served > 0 && w.served < TWO_63 && CheckpointOk(w.store.checkpoints[k], k, w.served - 1)
    requires -TWO_63 <= env.finished < TWO_63 && Adopted(w.store.jobs[k.Job()], env) == Ok((now, pid))
    ensures Inv(w.(store := UseSaved(w.store, k, w.store.checkpoints[k], env, now, pid)))
    ensures JobOk(now, k.Job()) && CheckpointOk(Touched(w.store.checkpoints[k], pid, env), k, w.served)
  {
    var c := w.store.checkpoints[k];
    AdoptedOk(w.store, w.store.jobs[k.Job()], k.Job(), env);
    AdoptKeeps(w, k.Job(), env);
    TouchedOk(c, k, pid, env, w.served - 1);
    UsedKeeps(w.(store := if env.pidfile.Some? then PutJob(w.store, now) else w.store), k, Touched(c, pid, env));
  }

  method RecordUse(store: Store, k: CheckpointKey, c: CheckpointRecord, env: Env, now: JobRecord, pid: string,
                   ghost served: nat)
    requires store.Valid() && JobOk(now, k.Job()) && CheckpointOk(Touched(c, pid, env), k, served)
    modifies store
    ensures store.Valid() && store.View() == UseSaved(old(store.View()), k, c, env, now, pid)
  {
    if env.pidfile.Some? {
      SaveKnownJob(store, now);
    }
    RecordResult(store, now, k, Touched(c, pid, env), served);
  }

  method HandleRestore(store: Store, cfg: BrokerConfig, i: Input, script: PruneRun.Script, ghost w: World)
    returns (reply: Reply, rest: PruneRun.Script, ghost cut: Option<Cut>)
    requires Serves(store, cfg, w, i) && 0 < w.served < TWO_63
    requires forall k :: k in w.store.checkpoints ==> CheckpointOk(w.store.checkpoints[k], k, w.served - 1)
    modifies store
    ensures store.Valid() && Outcome(store.View(), reply) == RestoreRequest(cfg, w.store, CutAt(i, cut))
    ensures script == [] ==> rest == [] && cut == None
  {
    rest, cut := script, None;
    var loaded := store.LoadJob(i.peer.uid, i.request.Get("job_id"));
    if loaded.Err? {
      return Refused("job not found"), rest, cut;
    }
    var job := loaded.value;
    var resolved := ResolveCheckpointId(job, i.request.Get("checkpoint_id"));
    if resolved.Err? {
      return Refused(resolved.error), rest, cut;
    }
    var checkpoint := store.LoadCheckpoint(job, resolved.value);
    if checkpoint.Err? {
      return Refused("checkpoint not found"), rest, cut;
    }
    var extra := ExtraArgs.ValidateExtraArgs(i.request.GetAll("extra_arg"));
    if extra.Err? {
      return Refused("unsafe CRIU argument"), rest, cut;
    }
    var k, c := CheckpointKeyOf(job, resolved.value), checkpoint.value;
    if !i.env.workerSucceeds {
      ResultLineFree("restore-failed");
      WithStateOk(c, k, "restore-failed", i.env.size, w.served);
      RecordResult(store, job, k, WithState(c, "restore-failed", i.env.size), w.served);
      return Refused("restore_failed"), rest, cut;
    }
    reply, rest, cut := FinishRestore(store, cfg, job, k, c, i.env, script, w);
  }

  // ---- Dispatch ----------------------------------------------------------------------------------------

  lemma PossibleAnyway(w: World, i: Input, cut: Option<Cut>)
    requires Possible(w, i)
    ensures Possible(w, CutAt(i, cut))
  {}

  /**
   One request on the text store is one step of the state machine, whichever of the prune's writes
   the script lets fail.
   */
  method HandleRequest(store: Store, cfg: BrokerConfig, i: Input, script: PruneRun.Script, ghost w: World)
    returns (reply: Reply, rest: PruneRun.Script, ghost cut: Option<Cut>)
    requires store.Valid() && store.View() == w.store && store.root == cfg.root && Inv(w) && RootOk(cfg)
    requires Possible(w, i)
    modifies store
    ensures store.Valid() && store.View() == Step(cfg, w, CutAt(i, cut)).store && Inv(Step(cfg, w, CutAt(i, cut)))
    ensures reply == Handle(cfg, w.store, CutAt(i, cut)).reply
    ensures BrokerAnswers.Means(w.store, Outcome(store.View(), reply), CutAt(i, cut))
    ensures script == [] ==> rest == [] && cut == None
  {
    reply, rest, cut := Dispatch(store, cfg, i, script, w);
    PossibleAnyway(w, i, cut);
    StepKeeps(cfg, w, CutAt(i, cut));
    BrokerAnswers.EveryAnswerMeans(cfg, w, CutAt(i, cut));
  }

  /** The two requests that prune nothing. */
  lemma NoPrune(s: State, i: Input, cut: Option<Cut>)
    ensures RunRequest(s, CutAt(i, cut)) == RunRequest(s, i) && StatusRequest(s, CutAt(i, cut)) == StatusRequest(s, i)
  {}

  lemma HandleIs(cfg: BrokerConfig, s: State, i: Input, cut: Option<Cut>)
    requires OnlyFields(i.request, AllowedFields(CommandOf(i.request.command)))
    ensures var out := Handle(cfg, s, CutAt(i, cut));
            match CommandOf(i.request.command)
            case RunJob => out == RunRequest(s, i)
            case ShowStatus => out == StatusRequest(s, i)
            case TakeCheckpoint => out == CheckpointRequest(cfg, s, CutAt(i, cut))
            case TakeCheckpointOfPid => out == CheckpointPidRequest(cfg, s, CutAt(i, cut))
            case RestoreCheckpoint => out == RestoreRequest(cfg, s, CutAt(i, cut))
            case Unsupported => out == Refuse(s, "unsupported request command")
  {
    NoPrune(s, i, cut);
    assert CutAt(i, cut).request == i.request;
  }

  method Dispatch(store: Store, cfg: BrokerConfig, i: Input, script: PruneRun.Script, ghost w: World)
    returns (reply: Reply, rest: PruneRun.Script, ghost cut: Option<Cut>)
    requires store.Valid() && store.View() == w.store && store.root == cfg.root && Inv(w) && RootOk(cfg)
    requires Possible(w, i)
    modifies store
    ensures store.Valid() && Outcome(store.View(), reply) == Handle(cfg, w.store, CutAt(i, cut))
    ensures script == [] ==> rest == [] && cut == None
  {
    rest, cut := script, None;
    var c := CommandOf(i.request.command);
    if c.Unsupported? {
      return Refused("unsupported request command"), rest, cut;
    } else if !OnlyFields(i.request, AllowedFields(c)) {
      return Refused("unexpected field in request"), rest, cut;
    }
    ghost var w1 := Begin(store, cfg, i, w);
    reply, rest, cut := Route(store, cfg, i, script, w1);
  }

  /** The state a request works in: its fresh ids handed out, itself counted as served. */
  lemma Begin(store: Store, cfg: BrokerConfig, i: Input, w: World) returns (w1: World)
    requires store.Valid() && store.View() == w.store && store.root == cfg.root && Inv(w) && RootOk(cfg)
    requires Possible(w, i)
    ensures Serves(store, cfg, w1, i) && w1.store == w.store && w1.served == w.served + 1 && w1.served < TWO_63
    ensures forall k :: k in w.store.checkpoints ==> CheckpointOk(w.store.checkpoints[k], k, w1.served - 1)
  {
    var ids := {i.env.freshJob, i.env.freshCheckpoint};
    w1 := w.(issued := w.issued + ids, served := w.served + 1);
    Later(w, ids);
    FreshUnused(w, i);
  }

  method Route(store: Store, cfg: BrokerConfig, i: Input, script: PruneRun.Script, ghost w: World)
    returns (reply: Reply, rest: PruneRun.Script, ghost cut: Option<Cut>)
    requires Serves(store, cfg, w, i) && 0 < w.served < TWO_63
    requires forall k :: k in w.store.checkpoints ==> CheckpointOk(w.store.checkpoints[k], k, w.served - 1)
    requires var c := CommandOf(i.request.command); !c.Unsupported? && OnlyFields(i.request, AllowedFields(c))
    modifies store
    ensures store.Valid() && Outcome(store.View(), reply) == Handle(cfg, w.store, CutAt(i, cut))
    ensures script == [] ==> rest == [] && cut == None
  {
    rest, cut := script, None;
    match CommandOf(i.request.command)
    case RunJob => reply := HandleRun(store, cfg, i, w);
    case ShowStatus => reply := HandleStatus(store, cfg, i, w);
    case TakeCheckpoint => reply, rest, cut := HandleCheckpoint(store, cfg, i, script, w);
    case TakeCheckpointOfPid => reply, rest, cut := HandleCheckpointPid(store, cfg, i, script, w);
    case RestoreCheckpoint => reply, rest, cut := HandleRestore(store, cfg, i, script, w);
    HandleIs(cfg, w.store, i, cut);
  }

  // ---- Serving a run -----------------------------------------------------------------------------------

  /** Which inputs are possible depends on the ids handed out and the requests served, not on the store. */
  lemma {:induction false} AdmissibleAnyway(cfg: BrokerConfig, v: World, w: World, run: seq<Input>)
    requires v.issued == w.issued && v.served == w.served && Admissible(cfg, v, run)
    ensures Admissible(cfg, w, run)
    decreases |run|
  {
    if run != [] {
      AdmissibleAnyway(cfg, Step(cfg, v, run[0]), Step(cfg, w, run[0]), run[1..]);
    }
  }

  lemma NextAdmissible(cfg: BrokerConfig, w: World, run: seq<Input>, n: nat, cut: Option<Cut>)
    requires n < |run| && Admissible(cfg, w, run[n..])
    ensures Possible(w, run[n]) && Admissible(cfg, Step(cfg, w, CutAt(run[n], cut)), run[n + 1..])
  {
    assert run[n..][0] == run[n] && run[n..][1..] == run[n + 1..];
    AdmissibleAnyway(cfg, Step(cfg, w, run[n]), Step(cfg, w, CutAt(run[n], cut)), run[n + 1..]);
  }

  lemma {:induction false} AfterOneMore(cfg: BrokerConfig, w: World, run: seq<Input>, i: Input)
    ensures After(cfg, w, run + [i]) == Step(cfg, After(cfg, w, run), i)
    ensures Replies(cfg, w, run + [i]) == Replies(cfg, w, run) + [Handle(cfg, After(cfg, w, run).store, i).reply]
    decreases |run|
  {
    if run == [] {
      assert run + [i] == [i] && [i][1..] == [];
    } else {
      assert (run + [i])[1..] == run[1..] + [i];
      AfterOneMore(cfg, Step(cfg, w, run[0]), run[1..], i);
    }
  }

  /** `actual` is the run with what became of each prune filled in. */
  ghost predicate Happened(run: seq<Input>, actual: seq<Input>) {
    |actual| <= |run| && forall n :: 0 <= n < |actual| ==> actual[n] == CutAt(run[n], actual[n].env.cut)
  }

  /** The run so far: `actual` happened, led to `w` and was answered with `replies`. */
  ghost predicate Serving(cfg: BrokerConfig, run: seq<Input>, n: nat, actual: seq<Input>, w: World,
                          replies: seq<Reply>)
  {
    && n <= |run| && |actual| == n && Happened(run, actual) && Admissible(cfg, w, run[n..])
    && w == After(cfg, EMPTY, actual) && replies == Replies(cfg, EMPTY, actual)
  }

  lemma ServingStep(cfg: BrokerConfig, run: seq<Input>, n: nat, actual: seq<Input>, w: World, replies: seq<Reply>,
                    cut: Option<Cut>)
    requires n < |run| && Serving(cfg, run, n, actual, w, replies)
    ensures var i := CutAt(run[n], cut);
            Serving(cfg, run, n + 1, actual + [i], Step(cfg, w, i), replies + [Handle(cfg, w.store, i).reply])
  {
    NextAdmissible(cfg, w, run, n, cut);
    AfterOneMore(cfg, EMPTY, actual, CutAt(run[n], cut));
  }

  /**
   A daemon serving requests one after the other from an empty state root: whichever writes of its
   prunes fail, its files and answers are those of the run that happened.
   */
  method ServeRequests(cfg: BrokerConfig, run: seq<Input>, script: PruneRun.Script)
    returns (store: Store, replies: seq<Reply>, ghost actual: seq<Input>)
    requires RootOk(cfg) && Admissible(cfg, EMPTY, run)
    ensures fresh(store) && store.Valid() && store.View() == After(cfg, EMPTY, actual).store
    ensures |actual| == |run| && Happened(run, actual) && replies == Replies(cfg, EMPTY, actual)
    ensures script == [] ==> forall n :: 0 <= n < |run| ==> actual[n].env.cut == None
  {
    store := new Store(cfg.root);
    replies, actual := [], [];
    var rest := script;
    ghost var w := EMPTY;
    assert run[0..] == run;
    for n := 0 to |run|
      invariant fresh(store) && Holds(store, cfg, w) && Serving(cfg, run, n, actual, w, replies)
      invariant script == [] ==> rest == [] && NeverCut(actual)
    {
      replies, rest, actual, w := ServeNext(store, cfg, run, n, replies, rest, actual, w);
    }
  }

  /** The store stands for `w`, a state the broker keeps. */
  ghost predicate Holds(store: Store, cfg: BrokerConfig, w: World)
    reads store
  {
    store.Valid() && store.root == cfg.root && store.View() == w.store && Inv(w)
  }

  ghost predicate NeverCut(actual: seq<Input>) {
    forall n :: 0 <= n < |actual| ==> actual[n].env.cut == None
  }

  /** One turn of the loop: the request is handled, and the store stands for the next state. */
  method TakeTurn(store: Store, cfg: BrokerConfig, i: Input, script: PruneRun.Script, ghost w: World)
    returns (reply: Reply, rest: PruneRun.Script, ghost cut: Option<Cut>)
    requires RootOk(cfg) && Holds(store, cfg, w) && Possible(w, i)
    modifies store
    ensures Holds(store, cfg, Step(cfg, w, CutAt(i, cut))) && reply == Handle(cfg, w.store, CutAt(i, cut)).reply
    ensures script == [] ==> rest == [] && cut == None
  {
    reply, rest, cut := HandleRequest(store, cfg, i, script, w);
  }

  method ServeNext(store: Store, cfg: BrokerConfig, run: seq<Input>, n: nat, said: seq<Reply>, script: PruneRun.Script,
                   ghost before: seq<Input>, ghost w: World)
    returns (replies: seq<Reply>, rest: PruneRun.Script, ghost actual: seq<Input>, ghost next: World)
    requires RootOk(cfg) && n < |run| && Holds(store, cfg, w) && Serving(cfg, run, n, before, w, said)
    modifies store
    ensures Holds(store, cfg, next) && Serving(cfg, run, n + 1, actual, next, replies)
    ensures script == [] && NeverCut(before) ==> rest == [] && NeverCut(actual)
  {
    NextAdmissible(cfg, w, run, n, None);
    var reply;
    ghost var cut;
    reply, rest, cut := TakeTurn(store, cfg, run[n], script, w);
    ServingStep(cfg, run, n, before, w, said, cut);
    next := Step(cfg, w, CutAt(run[n], cut));
    replies, actual := said + [reply], before + [CutAt(run[n], cut)];
  }

  ghost function Replies(cfg: BrokerConfig, w: World, run: seq<Input>): seq<Reply>
    decreases |run|
  {
    if run == [] then [] else [Handle(cfg, w.store, run[0]).reply] + Replies(cfg, Step(cfg, w, run[0]), run[1..])
  }
}
