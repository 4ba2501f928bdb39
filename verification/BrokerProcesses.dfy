/**
 Which process a dump is taken of, over runs in which requests and the process table move on
 together: what each request sees of the table comes from one history of spawns, exits, reused
 pids and changed credentials.
 */
module BrokerProcesses {
  import opened Broker
  import opened BrokerInvariant
  import opened BrokerRuns
  import opened Outcomes
  import opened Paths
  import opened Protocol
  import opened Records
  import opened Stores
  import ExtraArgs
  import Processes

  type Events = seq<Processes.Event>

  /** A request with the events before it, between its first look at the table and the second, and after that. */
  datatype Timed = Timed(input: Input, before: Events, between: Events, after: Events)

  /** The broker, the processes, and for each job the process it was last launched as or adopted from. */
  datatype Scene = Scene(world: World, history: Processes.History, origins: map<JobKey, nat>)

  const START := Scene(EMPTY, Processes.NO_PROCESSES, map[])

  /** The events can happen, and the request sees the table as they leave it. */
  ghost predicate Occurs(c: Scene, t: Timed) {
    && Possible(c.world, t.input) && Processes.PossibleRun(c.history, t.before)
    && var first := Processes.AfterRun(c.history, t.before);
    && first.table == t.input.env.table && Launched(t.input.env) && Processes.PossibleRun(first, t.between)
    && var second := Processes.AfterRun(first, t.between);
    && second.table == t.input.env.recheck && Processes.PossibleRun(second, t.after)
    && Processes.AfterRun(second, t.after).table == t.input.env.later
  }

  /** A launch reports the pid and start time of a process of its own. */
  predicate Launched(env: Env) {
    env.launched.Some? ==>
      env.launched.value.0 in env.table
      && env.table[env.launched.value.0].status.startTicks == env.launched.value.1
  }

  /** The job whose pid and start time this request takes from the process table: at launch or adoption. */
  ghost function Recorded(cfg: BrokerConfig, s: State, i: Input): Option<JobKey> {
    var c := CommandOf(i.request.command);
    if c.Unsupported? || !OnlyFields(i.request, AllowedFields(c)) then None
    else
      match c
      case RunJob => (match RunRequest(s, i).reply case Accepted(job, _) => Some(job) case Refused(_) => None)
      case TakeCheckpointOfPid =>
        (match PidJob(i) case Some(job) => if JobSaves(job) then Some(KeyOf(job)) else None case None => None)
      case RestoreCheckpoint =>
        (match RestoreRequest(cfg, s, i).reply
         case Accepted(job, _) => if i.env.pidfile.Some? then Some(job) else None
         case Refused(_) => None)
      case _ => None
  }

  /** The process the table shows under the job's new pid. */
  function Incarnation(table: Processes.Snapshot, s: State, k: JobKey): nat {
    if k in s.jobs && s.jobs[k].pid in table then table[s.jobs[k].pid].incarnation else 0
  }

  ghost function Advance(cfg: BrokerConfig, c: Scene, t: Timed): Scene
    requires Occurs(c, t)
  {
    var world := Step(cfg, c.world, t.input);
    var first := Processes.AfterRun(c.history, t.before);
    var last := Processes.AfterRun(Processes.AfterRun(first, t.between), t.after);
    match Recorded(cfg, c.world.store, t.input)
    case None => Scene(world, last, c.origins)
    case Some(k) => Scene(world, last, c.origins[k := Incarnation(t.input.env.table, world.store, k)])
  }

  // ---- What a request does to the jobs' processes ---------------------------------------------

  predicate SameProcess(a: JobRecord, b: JobRecord) {
    a.pid == b.pid && a.startTimeTicks == b.startTimeTicks
  }

  /** Every job of `t` but `k` is one of `s` and holds the same pid and start time. */
  ghost predicate ProcessesKept(s: State, t: State, k: Option<JobKey>) {
    forall j :: j in t.jobs && Some(j) != k ==> j in s.jobs && SameProcess(s.jobs[j], t.jobs[j])
  }

  /** The job recorded, if any, holds the pid and start time of a process in the table. */
  ghost predicate RecordedFrom(table: Processes.Snapshot, t: State, k: Option<JobKey>) {
    k.Some? ==> k.value in t.jobs && Processes.RecordedIn(table, t.jobs[k.value])
  }

  lemma PruneJobs(cfg: BrokerConfig, s: State, job: JobRecord, id: string, env: Env)
    ensures PruneAfter(cfg, s, job, id, env).jobs == s.jobs
  {}

  lemma ObserveProcesses(s: State, table: Processes.Snapshot, k: JobKey)
    requires k in s.jobs && KeyOf(s.jobs[k]) == k
    ensures var (seen, job) := Observe(s, table, s.jobs[k]);
            ProcessesKept(s, seen, None) && k in seen.jobs && seen.jobs[k] == job && SameProcess(job, s.jobs[k])
  {}

  lemma DumpProcesses(cfg: BrokerConfig, s: State, k: JobKey, i: Input, safe: bool)
    requires k in s.jobs && KeyOf(s.jobs[k]) == k
    ensures ProcessesKept(s, Dump(cfg, s, s.jobs[k], i, safe).store, None)
    ensures s.jobs.Keys == Dump(cfg, s, s.jobs[k], i, safe).store.jobs.Keys
  {
    var job, env := s.jobs[k], i.env;
    var key := CheckpointKeyOf(job, env.freshCheckpoint);
    var created := NewCheckpoint(cfg.root, job, env);
    var ready := PutCheckpoint(PutCheckpoint(s, key, created), key, WithState(created, "ready", env.size));
    var latest := job.(latestCheckpoint := env.freshCheckpoint);
    PruneJobs(cfg, PutExport(PutJob(ready, latest), key), latest, env.freshCheckpoint, env);
  }

  lemma KeptThrough(s: State, t: State, u: State, k: Option<JobKey>)
    requires ProcessesKept(s, t, k) && ProcessesKept(t, u, None)
    ensures ProcessesKept(s, u, k)
  {}

  lemma CheckpointProcesses(cfg: BrokerConfig, w: World, i: Input)
    requires Inv(w)
    ensures ProcessesKept(w.store, CheckpointRequest(cfg, w.store, i).store, None)
  {
    var s := w.store;
    if FindsJob(s, i) {
      var k := JobKey(i.peer.uid, i.request.Get("job_id"));
      var (seen, job) := Observe(s, i.env.table, s.jobs[k]);
      ObserveProcesses(s, i.env.table, k);
      if job.state == "running" {
        if Processes.JobSecurity(i.env.recheck, job) {
          DumpProcesses(cfg, seen, k, i, true);
          KeptThrough(s, seen, Dump(cfg, seen, job, i, true).store, None);
        } else {
          ObserveProcesses(seen, i.env.later, k);
          KeptThrough(s, seen, Observe(seen, i.env.later, job).0, None);
        }
      }
    }
  }

  lemma CheckpointPidProcesses(cfg: BrokerConfig, s: State, i: Input)
    ensures var recorded := if PidJob(i).Some? && JobSaves(PidJob(i).value) then Some(KeyOf(PidJob(i).value)) else None;
            var t := CheckpointPidRequest(cfg, s, i).store;
            && ProcessesKept(s, t, recorded) && RecordedFrom(i.env.table, t, recorded)
            && (recorded.Some? ==> t.jobs[recorded.value].pid == PidJob(i).value.pid)
  {
    if PidJob(i).Some? && JobSaves(PidJob(i).value) {
      var job := PidJob(i).value;
      var made, safe := PutJob(s, job), Processes.JobSecurity(i.env.recheck, job);
      DumpProcesses(cfg, made, KeyOf(job), i, safe);
      PidJobRecorded(i);
      MadeKept(s, job);
      KeptThrough(s, made, Dump(cfg, made, job, i, safe).store, Some(KeyOf(job)));
    }
  }

  lemma MadeKept(s: State, job: JobRecord)
    ensures ProcessesKept(s, PutJob(s, job), Some(KeyOf(job)))
  {}

  lemma PidJobRecorded(i: Input)
    requires PidJob(i).Some?
    ensures Processes.RecordedIn(i.env.table, PidJob(i).value)
  {}

  lemma AdoptedRecorded(job: JobRecord, env: Env)
    requires Adopted(job, env).Ok?
    ensures var adopted := Adopted(job, env).value.0;
            if env.pidfile.Some? then KeyOf(adopted) == KeyOf(job) && Processes.RecordedIn(env.table, adopted)
            else adopted == job
  {}

  lemma RestoreProcesses(cfg: BrokerConfig, s: State, k: CheckpointKey, env: Env)
    requires k in s.checkpoints && k.Job() in s.jobs && KeyOf(s.jobs[k.Job()]) == k.Job()
    ensures var out := Restore(cfg, s, s.jobs[k.Job()], k, env);
            var recorded := if out.reply.Accepted? && env.pidfile.Some? then Some(k.Job()) else None;
            ProcessesKept(s, out.store, recorded) && RecordedFrom(env.table, out.store, recorded)
  {
    var job := s.jobs[k.Job()];
    if env.workerSucceeds && Adopted(job, env).Ok? {
      var (adopted, pid) := Adopted(job, env).value;
      AdoptedRecorded(job, env);
      var saved := if env.pidfile.Some? then PutJob(s, adopted) else s;
      var done := PutExport(PutCheckpoint(saved, k, Touched(s.checkpoints[k], pid, env)), k);
      PruneJobs(cfg, done, adopted, k.checkpointId, env);
    }
  }

  lemma RestoreRequestProcesses(cfg: BrokerConfig, w: World, i: Input)
    requires Inv(w)
    ensures var out := RestoreRequest(cfg, w.store, i);
            var recorded := if out.reply.Accepted? && i.env.pidfile.Some? then Some(out.reply.job) else None;
            ProcessesKept(w.store, out.store, recorded) && RecordedFrom(i.env.table, out.store, recorded)
  {
    var s := w.store;
    if FindsJob(s, i) {
      var job := FoundJob(s, i);
      var resolved := ResolveCheckpointId(job, i.request.Get("checkpoint_id"));
      if resolved.Ok? && CheckpointKeyOf(job, resolved.value) in s.checkpoints {
        RestoreProcesses(cfg, s, CheckpointKeyOf(job, resolved.value), i.env);
      }
    }
  }

  lemma RunProcesses(s: State, i: Input)
    requires Launched(i.env)
    ensures var out := RunRequest(s, i);
            var recorded := if out.reply.Accepted? then Some(out.reply.job) else None;
            ProcessesKept(s, out.store, recorded) && RecordedFrom(i.env.table, out.store, recorded)
  {}

  /** A request takes one job's process from the table, or none; every other job keeps the process it had. */
  lemma RequestProcesses(cfg: BrokerConfig, w: World, i: Input)
    requires Inv(w) && Launched(i.env)
    ensures var t, recorded := Handle(cfg, w.store, i).store, Recorded(cfg, w.store, i);
            ProcessesKept(w.store, t, recorded) && RecordedFrom(i.env.table, t, recorded)
  {
    var c := CommandOf(i.request.command);
    if !c.Unsupported? && OnlyFields(i.request, AllowedFields(c)) {
      match c
      case RunJob => RunProcesses(w.store, i);
      case ShowStatus =>
        if FindsJob(w.store, i) {
          ObserveProcesses(w.store, i.env.table, JobKey(i.peer.uid, i.request.Get("job_id")));
        }
      case TakeCheckpoint => CheckpointProcesses(cfg, w, i);
      case TakeCheckpointOfPid => CheckpointPidProcesses(cfg, w.store, i);
      case RestoreCheckpoint => RestoreRequestProcesses(cfg, w, i);
    }
  }

  // ---- Whole runs ----------------------------------------------------------------------------------

  /** Whatever now runs under a job's pid and start time is the process the job was recorded from. */
  ghost predicate Rooted(c: Scene) {
    && Inv(c.world) && Processes.Remembered(c.history)
    && forall k :: k in c.world.store.jobs ==> RootedJob(c, k)
  }

  ghost predicate RootedJob(c: Scene, k: JobKey)
    requires k in c.world.store.jobs
  {
    var job := c.world.store.jobs[k];
    k in c.origins && Processes.Denotes(c.history, job.pid, job.startTimeTicks, c.origins[k])
  }

  /** A process keeps being denoted through the events of a whole request. */
  lemma DenotedOn(h: Processes.History, between: Events, after: Events, pid: int, ticks: string, n: nat)
    requires Processes.PossibleRun(h, between) && Processes.PossibleRun(Processes.AfterRun(h, between), after)
    requires Processes.Denotes(h, pid, ticks, n)
    ensures Processes.Denotes(Processes.AfterRun(h, between), pid, ticks, n)
    ensures Processes.Denotes(Processes.AfterRun(Processes.AfterRun(h, between), after), pid, ticks, n)
  {
    Processes.DenotesForever(h, between, pid, ticks, n);
    Processes.DenotesForever(Processes.AfterRun(h, between), after, pid, ticks, n);
  }

  lemma AdvanceJob(cfg: BrokerConfig, c: Scene, t: Timed, k: JobKey)
    requires RootOk(cfg) && Rooted(c) && Occurs(c, t) && k in Advance(cfg, c, t).world.store.jobs
    ensures var d := Advance(cfg, c, t);
            var first := Processes.AfterRun(c.history, t.before);
            var job := d.world.store.jobs[k];
            && k in d.origins
            && Processes.Denotes(Processes.AfterRun(first, t.between), job.pid, job.startTimeTicks, d.origins[k])
            && Processes.Denotes(d.history, job.pid, job.startTimeTicks, d.origins[k])
  {
    var d, s := Advance(cfg, c, t), c.world.store;
    var first := Processes.AfterRun(c.history, t.before);
    var job := d.world.store.jobs[k];
    RequestProcesses(cfg, c.world, t.input);
    Processes.RememberedForever(c.history, t.before);
    if Recorded(cfg, s, t.input) != Some(k) {
      assert RootedJob(c, k);
      Processes.DenotesForever(c.history, t.before, job.pid, job.startTimeTicks, c.origins[k]);
    }
    DenotedOn(first, t.between, t.after, job.pid, job.startTimeTicks, d.origins[k]);
  }

  lemma RememberedOn(c: Scene, t: Timed, cfg: BrokerConfig)
    requires Processes.Remembered(c.history) && Occurs(c, t)
    ensures Processes.Remembered(Advance(cfg, c, t).history)
  {
    var first := Processes.AfterRun(c.history, t.before);
    Processes.RememberedForever(c.history, t.before);
    Processes.RememberedForever(first, t.between);
    Processes.RememberedForever(Processes.AfterRun(first, t.between), t.after);
  }

  lemma AdvanceRooted(cfg: BrokerConfig, c: Scene, t: Timed)
    requires RootOk(cfg) && Rooted(c) && Occurs(c, t)
    ensures Rooted(Advance(cfg, c, t))
  {
    var d := Advance(cfg, c, t);
    StepKeeps(cfg, c.world, t.input);
    RememberedOn(c, t, cfg);
    forall k | k in d.world.store.jobs ensures RootedJob(d, k) {
      AdvanceJob(cfg, c, t, k);
    }
  }

  ghost predicate Happens(cfg: BrokerConfig, c: Scene, run: seq<Timed>)
    decreases |run|
  {
    run == [] || (Occurs(c, run[0]) && Happens(cfg, Advance(cfg, c, run[0]), run[1..]))
  }

  ghost function Reached(cfg: BrokerConfig, c: Scene, run: seq<Timed>): Scene
    requires Happens(cfg, c, run)
    decreases |run|
  {
    if run == [] then c else Reached(cfg, Advance(cfg, c, run[0]), run[1..])
  }

  lemma {:induction false} RootedFrom(cfg: BrokerConfig, c: Scene, run: seq<Timed>)
    requires RootOk(cfg) && Rooted(c) && Happens(cfg, c, run)
    ensures Rooted(Reached(cfg, c, run))
    decreases |run|
  {
    if run != [] {
      AdvanceRooted(cfg, c, run[0]);
      RootedFrom(cfg, Advance(cfg, c, run[0]), run[1..]);
    }
  }

  /** The job a request hands to the dump worker, if it gets that far. */
  ghost function Dumped(s: State, i: Input): Option<JobRecord> {
    var c := CommandOf(i.request.command);
    if c.Unsupported? || !OnlyFields(i.request, AllowedFields(c)) || !ExtraArgs.Accepts(i.request.GetAll("extra_arg"))
    then None
    else if c == TakeCheckpoint && FindsJob(s, i) then
      var job := Observe(s, i.env.table, FoundJob(s, i)).1;
      if job.state == "running" && Processes.JobSecurity(i.env.recheck, job) then Some(job) else None
    else if c == TakeCheckpointOfPid && PidJob(i).Some? && JobSaves(PidJob(i).value)
            && Processes.JobSecurity(i.env.recheck, PidJob(i).value) then PidJob(i)
    else None
  }

  /** A request that reports a checkpoint had handed its job to the worker. */
  lemma ReportedWasDumped(cfg: BrokerConfig, s: State, i: Input)
    requires CommandOf(i.request.command) in {TakeCheckpoint, TakeCheckpointOfPid}
    requires Handle(cfg, s, i).reply.Accepted?
    ensures Dumped(s, i).Some? && KeyOf(Dumped(s, i).value) == Handle(cfg, s, i).reply.job
  {
    if CommandOf(i.request.command) == TakeCheckpoint {
      assert Handle(cfg, s, i) == CheckpointRequest(cfg, s, i);
      CheckpointReported(cfg, s, i);
    } else {
      assert Handle(cfg, s, i) == CheckpointPidRequest(cfg, s, i);
    }
  }

  lemma CheckpointReported(cfg: BrokerConfig, s: State, i: Input)
    requires CheckpointRequest(cfg, s, i).reply.Accepted?
    ensures FindsJob(s, i) && ExtraArgs.Accepts(i.request.GetAll("extra_arg"))
    ensures var job := Observe(s, i.env.table, FoundJob(s, i)).1;
            && job.state == "running" && Processes.JobSecurity(i.env.recheck, job)
            && CheckpointRequest(cfg, s, i).reply.job == KeyOf(job)
  {}

  lemma DumpedIsStored(cfg: BrokerConfig, w: World, i: Input)
    requires Inv(w) && Dumped(w.store, i).Some?
    ensures var job, t := Dumped(w.store, i).value, Handle(cfg, w.store, i).store;
            KeyOf(job) in t.jobs && SameProcess(job, t.jobs[KeyOf(job)])
  {
    var job := Dumped(w.store, i).value;
    var s := DumpedFrom(cfg, w, i);
    DumpProcesses(cfg, s, KeyOf(job), i, true);
  }

  lemma CheckpointDumpsFrom(cfg: BrokerConfig, w: World, i: Input) returns (s: State)
    requires Inv(w) && FindsJob(w.store, i)
    requires var job := Observe(w.store, i.env.table, FoundJob(w.store, i)).1;
             job.state == "running" && Processes.JobSecurity(i.env.recheck, job)
    ensures var job := Observe(w.store, i.env.table, FoundJob(w.store, i)).1;
            && KeyOf(job) in s.jobs && s.jobs[KeyOf(job)] == job
            && CheckpointRequest(cfg, w.store, i) == Dump(cfg, s, job, i, true)
  {
    var k := JobKey(i.peer.uid, i.request.Get("job_id"));
    ObserveProcesses(w.store, i.env.table, k);
    s := Observe(w.store, i.env.table, w.store.jobs[k]).0;
  }

  /** The state a request that gets to its worker dumps from. */
  lemma DumpedFrom(cfg: BrokerConfig, w: World, i: Input) returns (s: State)
    requires Inv(w) && Dumped(w.store, i).Some?
    ensures var job := Dumped(w.store, i).value;
            && KeyOf(job) in s.jobs && s.jobs[KeyOf(job)] == job
            && Handle(cfg, w.store, i) == Dump(cfg, s, job, i, true)
  {
    if CommandOf(i.request.command) == TakeCheckpoint {
      assert Handle(cfg, w.store, i) == CheckpointRequest(cfg, w.store, i);
      s := CheckpointDumpsFrom(cfg, w, i);
    } else {
      assert Handle(cfg, w.store, i) == CheckpointPidRequest(cfg, w.store, i);
      s := PutJob(w.store, Dumped(w.store, i).value);
    }
  }

  /**
   In every run, whatever became of pids and credentials meanwhile: the process a worker is started
   to dump is the one its job was last launched as or adopted from, and holds no privilege.
   */
  lemma DumpsTheRecordedProcess(cfg: BrokerConfig, run: seq<Timed>, t: Timed)
    requires RootOk(cfg) && Happens(cfg, START, run) && Occurs(Reached(cfg, START, run), t)
    requires Dumped(Reached(cfg, START, run).world.store, t.input).Some?
    ensures var c := Reached(cfg, START, run);
            var job, origins := Dumped(c.world.store, t.input).value, Advance(cfg, c, t).origins;
            var table := t.input.env.recheck;
            && KeyOf(job) in origins && job.pid in table && table[job.pid].incarnation == origins[KeyOf(job)]
            && Processes.OwnAndPowerless(table[job.pid].status, job.ownerUid, job.ownerGid)
  {
    RootedFrom(cfg, START, run);
    DumpsFromRooted(cfg, Reached(cfg, START, run), t);
  }

  lemma DumpsFromRooted(cfg: BrokerConfig, c: Scene, t: Timed)
    requires RootOk(cfg) && Rooted(c) && Occurs(c, t) && Dumped(c.world.store, t.input).Some?
    ensures var job, origins := Dumped(c.world.store, t.input).value, Advance(cfg, c, t).origins;
            var table := t.input.env.recheck;
            && KeyOf(job) in origins && job.pid in table && table[job.pid].incarnation == origins[KeyOf(job)]
            && Processes.OwnAndPowerless(table[job.pid].status, job.ownerUid, job.ownerGid)
  {
    var job := Dumped(c.world.store, t.input).value;
    DumpedIsStored(cfg, c.world, t.input);
    AdvanceJob(cfg, c, t, KeyOf(job));
    DumpedIsSecure(c.world.store, t.input);
    Processes.SecureIsOwnAndPowerless(t.input.env.recheck, job);
  }

  lemma DumpedIsSecure(s: State, i: Input)
    requires Dumped(s, i).Some?
    ensures Processes.JobSecurity(i.env.recheck, Dumped(s, i).value)
  {}
}
