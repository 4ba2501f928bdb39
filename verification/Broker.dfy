/**
 The broker as a state machine: each request is a step on the store. What the broker does
 not decide itself — the worker's result, clocks, fresh ids, the process table, measured
 sizes, where a prune is cut short — is part of the step's input.
 */
module Broker {
  import opened Decimal
  import opened Outcomes
  import opened Paths
  import opened Processes
  import opened Protocol
  import opened Pruning
  import opened Records
  import opened Retention
  import opened Stores
  import CommandLine
  import CriuCommand
  import ExtraArgs
  import KeyValueText

  datatype BrokerConfig = BrokerConfig(root: Path, retention: Config)

  datatype Peer = Peer(uid: nat, gid: nat)

  /** What a launched or inspected process looks like to the broker. */
  datatype Executable = Executable(path: string, cwd: string, argv: seq<string>)

  datatype Env = Env(
    started: int,
    finished: int,
    freshJob: string,
    freshCheckpoint: string,
    launched: Option<(int, string)>,
    inspected: Option<Executable>,
    table: Snapshot,
    recheck: Snapshot,
    later: Snapshot,
    workerSucceeds: bool,
    pidfile: Option<string>,
    size: nat,
    measure: Measure,
    cut: Option<Cut>)

  datatype Input = Input(request: Message, peer: Peer, env: Env)

  /** The store, the ids handed out so far, and the number of requests served. */
  datatype World = World(store: State, issued: set<string>, served: nat)

  datatype Reply = Accepted(job: JobKey, checkpointId: string) | Refused(error: string)

  /** What a request leaves behind and answers. */
  datatype Outcome = Outcome(store: State, reply: Reply)

  // ---- Commands --------------------------------------------------------------------------

  datatype Command = RunJob | ShowStatus | TakeCheckpoint | TakeCheckpointOfPid | RestoreCheckpoint | Unsupported

  function CommandOf(name: string): Command {
    if name == "run" then RunJob
    else if name == "status" then ShowStatus
    else if name == "checkpoint" then TakeCheckpoint
    else if name == "checkpoint-pid" then TakeCheckpointOfPid
    else if name == "restore" then RestoreCheckpoint
    else Unsupported
  }

  function AllowedFields(c: Command): set<string> {
    match c
    case RunJob => {"arg", "cwd"}
    case ShowStatus => {"job_id"}
    case TakeCheckpoint => {"job_id", "extra_arg", "namespace_dump"}
    case TakeCheckpointOfPid => {"pid", "extra_arg", "namespace_dump"}
    case RestoreCheckpoint => {"job_id", "checkpoint_id", "extra_arg", "namespace_restore"}
    case Unsupported => {}
  }

  // ---- Records the broker makes -----------------------------------------------------------

  function NewJob(peer: Peer, pid: int, ticks: string, executable: Executable, env: Env): JobRecord {
    JobRecord(env.freshJob, peer.uid, peer.gid, pid, ticks, executable.path, executable.cwd,
              CommandLine.Join(executable.argv), "running", ToString(env.started), "")
  }

  function LogPath(root: Path, k: CheckpointKey, name: string): string {
    Render(CheckpointDir(root, k)) + "/logs/" + name
  }

  function NewCheckpoint(root: Path, job: JobRecord, env: Env): CheckpointRecord {
    var k := CheckpointKeyOf(job, env.freshCheckpoint);
    CheckpointRecord(env.freshCheckpoint, job.jobId, "created", ToString(env.started), "", "0", "0",
                     LogPath(root, k, "dump.log"), LogPath(root, k, "restore.log"), "")
  }

  /** The checkpoint with a new state and its size measured again. */
  function WithState(c: CheckpointRecord, state: string, size: nat): CheckpointRecord {
    Refresh(c.(state := state), size)
  }

  function Max(a: int, b: int): int {
    if a > b then a else b
  }

  /** A successful restore: counted, dated, and the restored pid recorded. */
  function Touched(c: CheckpointRecord, pid: string, env: Env): CheckpointRecord {
    WithState(c, "restored", env.size)
      .(restoreCount := ToString(Max(0, Num(c.restoreCount)) + 1),
        lastRestoredAt := ToString(env.finished), restoredPid := pid)
  }

  // ---- Store updates --------------------------------------------------------------------------

  function PutJob(s: State, job: JobRecord): State {
    s.(jobs := s.jobs[KeyOf(job) := job])
  }

  function PutCheckpoint(s: State, k: CheckpointKey, c: CheckpointRecord): State {
    s.(checkpoints := s.checkpoints[k := c])
  }

  function PutExport(s: State, k: CheckpointKey): State {
    s.(exports := s.exports + {k})
  }

  /** A prune after a request, whole or cut short by an exception the broker swallows. */
  ghost function PruneAfter(cfg: BrokerConfig, s: State, job: JobRecord, checkpointId: string, env: Env): State {
    PruneUpTo(s, Policy(cfg.retention, env.finished, job.jobId, checkpointId), env.measure, env.cut)
  }

  // ---- The requests ------------------------------------------------------------------------------

  function Refuse(s: State, error: string): Outcome {
    Outcome(s, Refused(error))
  }

  function RunRequest(s: State, i: Input): Outcome {
    var args, cwd := i.request.GetAll("arg"), i.request.Get("cwd");
    if args == [] || !CriuCommand.IsAbsolute(args[0]) || !CriuCommand.IsAbsolute(cwd) || i.env.launched.None? then
      Refuse(s, "launch failed")
    else
      var job := NewJob(i.peer, i.env.launched.value.0, i.env.launched.value.1, Executable(args[0], cwd, args), i.env);
      if !JobSaves(job) then Refuse(s, "job not saved")
      else Outcome(PutJob(s, job), Accepted(KeyOf(job), ""))
  }

  /** The job after its liveness is looked at again; saved only when it changed. */
  function Observe(s: State, table: Snapshot, job: JobRecord): (State, JobRecord) {
    var state := Liveness(table, job);
    if job.state == state then (s, job)
    else
      var seen := job.(state := state);
      (PutJob(s, seen), seen)
  }

  predicate FindsJob(s: State, i: Input) {
    SafeId(i.request.Get("job_id")) && JobKey(i.peer.uid, i.request.Get("job_id")) in s.jobs
  }

  function FoundJob(s: State, i: Input): JobRecord
    requires FindsJob(s, i)
  {
    s.jobs[JobKey(i.peer.uid, i.request.Get("job_id"))]
  }

  function StatusRequest(s: State, i: Input): Outcome {
    if !FindsJob(s, i) then Refuse(s, "job not found")
    else
      var (seen, job) := Observe(s, i.env.table, FoundJob(s, i));
      Outcome(seen, Accepted(KeyOf(job), job.latestCheckpoint))
  }

  /** From the created record on: arguments checked, the worker run, the result recorded. */
  ghost function Dump(cfg: BrokerConfig, s: State, job: JobRecord, i: Input, safe: bool): Outcome {
    var env := i.env;
    var k := CheckpointKeyOf(job, env.freshCheckpoint);
    var created := NewCheckpoint(cfg.root, job, env);
    var begun := PutCheckpoint(s, k, created);
    if !ExtraArgs.Accepts(i.request.GetAll("extra_arg")) then Refuse(begun, "unsafe CRIU argument")
    else if !safe then Refuse(begun, "target is not safe to checkpoint")
    else if !env.workerSucceeds then
      Refuse(PutExport(PutCheckpoint(begun, k, WithState(created, "failed", env.size)), k), "checkpoint_failed")
    else
      var ready := PutCheckpoint(begun, k, WithState(created, "ready", env.size));
      var latest := job.(latestCheckpoint := env.freshCheckpoint);
      var done := PutExport(PutJob(ready, latest), k);
      Outcome(PruneAfter(cfg, done, latest, env.freshCheckpoint, env), Accepted(KeyOf(job), env.freshCheckpoint))
  }

  ghost function CheckpointRequest(cfg: BrokerConfig, s: State, i: Input): Outcome {
    if !FindsJob(s, i) then Refuse(s, "job not found")
    else
      var (seen, job) := Observe(s, i.env.table, FoundJob(s, i));
      if job.state != "running" then Refuse(seen, "cannot checkpoint a non-running managed job")
      else if !JobSecurity(i.env.recheck, job) then
        Refuse(Observe(seen, i.env.later, job).0, "managed job is not safe to checkpoint")
      else Dump(cfg, seen, job, i, true)
  }

  /** The job made for a pid the peer asks for, when it is the peer's own unprivileged process. */
  function PidJob(i: Input): Option<JobRecord> {
    match Stol(i.request.Get("pid"))
    case Err(_) => None
    case Ok(v) =>
      var pid := ToInt32(v);
      var table := i.env.table;
      if pid <= 1 || pid !in table || !table[pid].readable || i.env.inspected.None? then None
      else
        var ticks := table[pid].status.startTicks;
        if !SecurityMatches(table, pid, i.peer.uid, i.peer.gid, ticks) then None
        else
          var e := i.env.inspected.value;
          Some(NewJob(i.peer, pid, ticks, if e.argv == [] then e.(argv := [e.path]) else e, i.env))
  }

  ghost function CheckpointPidRequest(cfg: BrokerConfig, s: State, i: Input): Outcome {
    match PidJob(i)
    case None => Refuse(s, "checkpoint target is not a safe peer-owned process")
    case Some(job) =>
      if !JobSaves(job) then Refuse(s, "job not saved")
      else Dump(cfg, PutJob(s, job), job, i, JobSecurity(i.env.recheck, job))
  }

  /** The pid the worker left in its pidfile, as the broker reads it back. */
  function PidfileValue(text: string): Result<string> {
    var data :- KeyValueText.Parse("pid=" + text);
    Ok(if "pid" in data then data["pid"] else "")
  }

  /** The job after a restore: the reported process adopted, or the job as it was without a pidfile. */
  function Adopted(job: JobRecord, env: Env): Result<(JobRecord, string)> {
    match env.pidfile
    case None => Ok((job, ""))
    case Some(text) =>
      var value :- PidfileValue(text);
      var pid :- Stol(value);
      var adopted :- AdoptManagedPid(env.table, job, ToInt32(pid));
      Ok((adopted, value))
  }

  ghost function RestoreRequest(cfg: BrokerConfig, s: State, i: Input): Outcome {
    if !FindsJob(s, i) then Refuse(s, "job not found")
    else
      var job := FoundJob(s, i);
      match ResolveCheckpointId(job, i.request.Get("checkpoint_id"))
      case Err(e) => Refuse(s, e)
      case Ok(id) =>
        var k := CheckpointKeyOf(job, id);
        if k !in s.checkpoints then Refuse(s, "checkpoint not found")
        else if !ExtraArgs.Accepts(i.request.GetAll("extra_arg")) then Refuse(s, "unsafe CRIU argument")
        else Restore(cfg, s, job, k, i.env)
  }

  ghost function Restore(cfg: BrokerConfig, s: State, job: JobRecord, k: CheckpointKey, env: Env): Outcome
    requires k in s.checkpoints
  {
    var c := s.checkpoints[k];
    if !env.workerSucceeds then
      Refuse(PutExport(PutCheckpoint(s, k, WithState(c, "restore-failed", env.size)), k), "restore_failed")
    else
      match Adopted(job, env)
      case Err(e) => Refuse(s, e)
      case Ok((adopted, pid)) =>
        var saved := if env.pidfile.Some? then PutJob(s, adopted) else s;
        var done := PutExport(PutCheckpoint(saved, k, Touched(c, pid, env)), k);
        Outcome(PruneAfter(cfg, done, adopted, k.checkpointId, env), Accepted(KeyOf(job), k.checkpointId))
  }

  /** One request. */
  ghost function Handle(cfg: BrokerConfig, s: State, i: Input): Outcome {
    var c := CommandOf(i.request.command);
    if c.Unsupported? then Refuse(s, "unsupported request command")
    else if !OnlyFields(i.request, AllowedFields(c)) then Refuse(s, "unexpected field in request")
    else
      match c
      case RunJob => RunRequest(s, i)
      case ShowStatus => StatusRequest(s, i)
      case TakeCheckpoint => CheckpointRequest(cfg, s, i)
      case TakeCheckpointOfPid => CheckpointPidRequest(cfg, s, i)
      case RestoreCheckpoint => RestoreRequest(cfg, s, i)
      case Unsupported => Refuse(s, "unsupported request command")
  }

  ghost function Step(cfg: BrokerConfig, w: World, i: Input): World {
    World(Handle(cfg, w.store, i).store, w.issued + {i.env.freshJob, i.env.freshCheckpoint}, w.served + 1)
  }
}
