/** Restore counts and dates against the history of accepted restores. */
module BrokerUsage {
  import opened Broker
  import opened BrokerInvariant
  import opened BrokerRuns
  import opened Decimal
  import opened Outcomes
  import opened Paths
  import Processes
  import opened Protocol
  import opened Pruning
  import opened Records
  import opened Stores
  import ExtraArgs
  import Strings

  // ---- The history -------------------------------------------------------------------------

  /** The client was told that its restore of `k` succeeded. */
  ghost predicate Restores(cfg: BrokerConfig, s: State, i: Input, k: CheckpointKey) {
    CommandOf(i.request.command) == RestoreCheckpoint && Handle(cfg, s, i).reply == Accepted(k.Job(), k.checkpointId)
  }

  /** When the successful restores of `k` in a run finished, in order. */
  ghost function RestoreTimes(cfg: BrokerConfig, w: World, run: seq<Input>, k: CheckpointKey): seq<int>
    decreases |run|
  {
    if run == [] then []
    else
      (if Restores(cfg, w.store, run[0], k) then [run[0].env.finished] else [])
      + RestoreTimes(cfg, Step(cfg, w, run[0]), run[1..], k)
  }

  /** The record counts the restores and dates the last one. */
  predicate Tells(c: CheckpointRecord, times: seq<int>) {
    && Num(c.restoreCount) == |times|
    && c.lastRestoredAt == if times == [] then "" else ToString(times[|times| - 1])
  }

  // ---- One request -------------------------------------------------------------------------------

  predicate SameUsage(c: CheckpointRecord, d: CheckpointRecord) {
    c.restoreCount == d.restoreCount && c.lastRestoredAt == d.lastRestoredAt
  }

  /** `t` has no checkpoint `s` lacks, and every one it keeps was used as often. */
  ghost predicate UsageKept(s: State, t: State) {
    forall k :: k in t.checkpoints ==> k in s.checkpoints && SameUsage(s.checkpoints[k], t.checkpoints[k])
  }

  lemma PruneUsage(cfg: BrokerConfig, s: State, job: JobRecord, id: string, env: Env)
    ensures UsageKept(s, PruneAfter(cfg, s, job, id, env))
  {
    var t := PruneAfter(cfg, s, job, id, env);
    forall k | k in t.checkpoints ensures k in s.checkpoints && SameUsage(s.checkpoints[k], t.checkpoints[k]) {}
  }

  /** A dump adds its own unused checkpoint and touches no other's usage. */
  lemma DumpUsage(cfg: BrokerConfig, s: State, job: JobRecord, i: Input, safe: bool)
    ensures var created := NewCheckpoint(cfg.root, job, i.env);
            var begun := PutCheckpoint(s, CheckpointKeyOf(job, i.env.freshCheckpoint), created);
            UsageKept(begun, Dump(cfg, s, job, i, safe).store)
  {
    var env := i.env;
    var k := CheckpointKeyOf(job, env.freshCheckpoint);
    var created := NewCheckpoint(cfg.root, job, env);
    var begun := PutCheckpoint(s, k, created);
    var latest := job.(latestCheckpoint := env.freshCheckpoint);
    var ready := PutCheckpoint(begun, k, WithState(created, "ready", env.size));
    PruneUsage(cfg, PutExport(PutJob(ready, latest), k), latest, env.freshCheckpoint, env);
  }

  /** A restore counts and dates the checkpoint it names exactly when it is accepted. */
  lemma RestoreUsage(cfg: BrokerConfig, s: State, job: JobRecord, k: CheckpointKey, env: Env)
    requires k in s.checkpoints
    ensures var out := Restore(cfg, s, job, k, env);
            if out.reply.Accepted?
            then Adopted(job, env).Ok?
                 && var used := Touched(s.checkpoints[k], Adopted(job, env).value.1, env);
                 UsageKept(PutCheckpoint(s, k, used), out.store)
            else UsageKept(s, out.store)
  {
    if env.workerSucceeds && Adopted(job, env).Ok? {
      var (adopted, pid) := Adopted(job, env).value;
      var saved := if env.pidfile.Some? then PutJob(s, adopted) else s;
      PruneUsage(cfg, PutExport(PutCheckpoint(saved, k, Touched(s.checkpoints[k], pid, env)), k), adopted,
                 k.checkpointId, env);
    }
  }

  /** What an accepted restore request went through. */
  lemma RestoresExactly(cfg: BrokerConfig, w: World, i: Input, k: CheckpointKey)
    requires Inv(w)
    ensures Restores(cfg, w.store, i, k) <==>
              && CommandOf(i.request.command) == RestoreCheckpoint
              && OnlyFields(i.request, AllowedFields(RestoreCheckpoint))
              && FindsJob(w.store, i) && KeyOf(FoundJob(w.store, i)) == k.Job()
              && ResolveCheckpointId(FoundJob(w.store, i), i.request.Get("checkpoint_id")) == Ok(k.checkpointId)
              && k in w.store.checkpoints && ExtraArgs.Accepts(i.request.GetAll("extra_arg"))
              && i.env.workerSucceeds && Adopted(FoundJob(w.store, i), i.env).Ok?
  {
    if CommandOf(i.request.command) == RestoreCheckpoint {
      if OnlyFields(i.request, AllowedFields(RestoreCheckpoint)) {
        assert Handle(cfg, w.store, i) == RestoreRequest(cfg, w.store, i);
      }
    }
  }

  /** `k` is used once more and dated now when `restored`, and as before otherwise. */
  predicate UsageStep(s: State, t: State, i: Input, k: CheckpointKey, restored: bool)
    requires k in t.checkpoints
  {
    if k !in s.checkpoints then
      k.checkpointId == i.env.freshCheckpoint && Tells(t.checkpoints[k], [])
    else if restored then
      && Num(t.checkpoints[k].restoreCount) == Num(s.checkpoints[k].restoreCount) + 1
      && t.checkpoints[k].lastRestoredAt == ToString(i.env.finished)
    else SameUsage(s.checkpoints[k], t.checkpoints[k])
  }

  /** A new checkpoint's record says it was never restored. */
  lemma NothingTold(root: Path, job: JobRecord, env: Env)
    ensures Tells(NewCheckpoint(root, job, env), [])
  {
    NumToString(0);
    assert ToString(0) == "0";
  }

  lemma KeptIsStep(s: State, key: CheckpointKey, created: CheckpointRecord, t: State, i: Input, k: CheckpointKey)
    requires key !in s.checkpoints && key.checkpointId == i.env.freshCheckpoint && Tells(created, [])
    requires UsageKept(PutCheckpoint(s, key, created), t) && k in t.checkpoints
    ensures UsageStep(s, t, i, k, false)
  {}

  lemma DumpUsageStep(cfg: BrokerConfig, s: State, job: JobRecord, i: Input, safe: bool, k: CheckpointKey)
    requires CheckpointKeyOf(job, i.env.freshCheckpoint) !in s.checkpoints
    requires k in Dump(cfg, s, job, i, safe).store.checkpoints
    ensures UsageStep(s, Dump(cfg, s, job, i, safe).store, i, k, false)
  {
    DumpUsage(cfg, s, job, i, safe);
    NothingTold(cfg.root, job, i.env);
    KeptIsStep(s, CheckpointKeyOf(job, i.env.freshCheckpoint), NewCheckpoint(cfg.root, job, i.env),
               Dump(cfg, s, job, i, safe).store, i, k);
  }

  lemma ObserveLeaves(s: State, table: Processes.Snapshot, job: JobRecord)
    ensures Observe(s, table, job).0.checkpoints == s.checkpoints
  {}

  lemma CheckpointUsageStep(cfg: BrokerConfig, s: State, i: Input, k: CheckpointKey)
    requires Unused(s, i) && k in CheckpointRequest(cfg, s, i).store.checkpoints
    ensures UsageStep(s, CheckpointRequest(cfg, s, i).store, i, k, false)
  {
    if FindsJob(s, i) {
      var (seen, job) := Observe(s, i.env.table, FoundJob(s, i));
      ObserveLeaves(s, i.env.table, FoundJob(s, i));
      ObserveLeaves(seen, i.env.later, job);
      if job.state == "running" && Processes.JobSecurity(i.env.recheck, job) {
        DumpUsageStep(cfg, seen, job, i, true, k);
      }
    }
  }

  lemma CheckpointPidUsageStep(cfg: BrokerConfig, s: State, i: Input, k: CheckpointKey)
    requires Unused(s, i) && k in CheckpointPidRequest(cfg, s, i).store.checkpoints
    ensures UsageStep(s, CheckpointPidRequest(cfg, s, i).store, i, k, false)
  {
    if PidJob(i).Some? {
      var job := PidJob(i).value;
      if JobSaves(job) {
        DumpUsageStep(cfg, PutJob(s, job), job, i, Processes.JobSecurity(i.env.recheck, job), k);
      }
    }
  }

  lemma TargetUsageStep(cfg: BrokerConfig, w: World, target: CheckpointKey, i: Input, k: CheckpointKey)
    requires Inv(w) && Possible(w, i) && target in w.store.checkpoints
    requires k in Restore(cfg, w.store, w.store.jobs[target.Job()], target, i.env).store.checkpoints
    ensures var out := Restore(cfg, w.store, w.store.jobs[target.Job()], target, i.env);
            UsageStep(w.store, out.store, i, k, k == target && out.reply.Accepted?)
  {
    var s, job := w.store, w.store.jobs[target.Job()];
    RestoreUsage(cfg, s, job, target, i.env);
    if Restore(cfg, s, job, target, i.env).reply.Accepted? {
      AdoptedOk(s, job, KeyOf(job), i.env);
      TouchedOk(s.checkpoints[target], target, Adopted(job, i.env).value.1, i.env, w.served);
    }
  }

  lemma RestoreUsageStep(cfg: BrokerConfig, w: World, i: Input, k: CheckpointKey)
    requires Inv(w) && Possible(w, i) && CommandOf(i.request.command) == RestoreCheckpoint
    requires OnlyFields(i.request, AllowedFields(RestoreCheckpoint))
    requires k in RestoreRequest(cfg, w.store, i).store.checkpoints
    ensures UsageStep(w.store, RestoreRequest(cfg, w.store, i).store, i, k, Restores(cfg, w.store, i, k))
  {
    var s := w.store;
    RestoresExactly(cfg, w, i, k);
    if FindsJob(s, i) {
      var job := FoundJob(s, i);
      var resolved := ResolveCheckpointId(job, i.request.Get("checkpoint_id"));
      if resolved.Ok? && CheckpointKeyOf(job, resolved.value) in s.checkpoints {
        if ExtraArgs.Accepts(i.request.GetAll("extra_arg")) {
          TargetUsageStep(cfg, w, CheckpointKeyOf(job, resolved.value), i, k);
        }
      }
    }
  }

  /** No request but a restore changes what a checkpoint's record says of its use. */
  lemma OtherUsageStep(cfg: BrokerConfig, s: State, i: Input, k: CheckpointKey)
    requires Unused(s, i) && !CommandOf(i.request.command).RestoreCheckpoint?
    requires k in Handle(cfg, s, i).store.checkpoints
    ensures UsageStep(s, Handle(cfg, s, i).store, i, k, false)
  {
    var c := CommandOf(i.request.command);
    if !c.Unsupported? && OnlyFields(i.request, AllowedFields(c)) {
      match c
      case RunJob => assert Handle(cfg, s, i) == RunRequest(s, i);
      case ShowStatus => assert Handle(cfg, s, i) == StatusRequest(s, i);
      case TakeCheckpoint =>
        assert Handle(cfg, s, i) == CheckpointRequest(cfg, s, i);
        CheckpointUsageStep(cfg, s, i, k);
      case TakeCheckpointOfPid =>
        assert Handle(cfg, s, i) == CheckpointPidRequest(cfg, s, i);
        CheckpointPidUsageStep(cfg, s, i, k);
    }
  }

  lemma StepUsage(cfg: BrokerConfig, w: World, i: Input, k: CheckpointKey)
    requires Inv(w) && Possible(w, i) && k in Step(cfg, w, i).store.checkpoints
    ensures UsageStep(w.store, Step(cfg, w, i).store, i, k, Restores(cfg, w.store, i, k))
  {
    FreshUnused(w, i);
    if !CommandOf(i.request.command).RestoreCheckpoint? {
      OtherUsageStep(cfg, w.store, i, k);
    } else if OnlyFields(i.request, AllowedFields(RestoreCheckpoint)) {
      assert Handle(cfg, w.store, i) == RestoreRequest(cfg, w.store, i);
      RestoreUsageStep(cfg, w, i, k);
    }
  }

  // ---- Whole runs ----------------------------------------------------------------------------------

  /** An id once handed out never comes back: what is gone stays gone. */
  lemma {:induction false} GoneForever(cfg: BrokerConfig, w: World, run: seq<Input>, k: CheckpointKey)
    requires RootOk(cfg) && Inv(w) && Admissible(cfg, w, run)
    requires k !in w.store.checkpoints && k.checkpointId in w.issued
    ensures k !in After(cfg, w, run).store.checkpoints
    decreases |run|
  {
    if run != [] {
      StepKeeps(cfg, w, run[0]);
      if k in Step(cfg, w, run[0]).store.checkpoints {
        StepUsage(cfg, w, run[0], k);
      }
      GoneForever(cfg, Step(cfg, w, run[0]), run[1..], k);
    }
  }

  lemma TellsStep(s: State, t: State, i: Input, k: CheckpointKey, restored: bool, before: seq<int>)
    requires k in t.checkpoints && UsageStep(s, t, i, k, restored)
    requires if k in s.checkpoints then Tells(s.checkpoints[k], before) else before == [] && !restored
    ensures Tells(t.checkpoints[k], before + if restored then [i.env.finished] else [])
  {
    assert before + [] == before;
  }

  lemma {:induction false} UsageFrom(cfg: BrokerConfig, w: World, run: seq<Input>, k: CheckpointKey, before: seq<int>)
    requires RootOk(cfg) && Inv(w) && Admissible(cfg, w, run) && k in After(cfg, w, run).store.checkpoints
    requires if k in w.store.checkpoints then Tells(w.store.checkpoints[k], before) else before == []
    ensures Tells(After(cfg, w, run).store.checkpoints[k], before + RestoreTimes(cfg, w, run, k))
    decreases |run|
  {
    if run == [] {
      assert before + [] == before;
    } else {
      var next := Step(cfg, w, run[0]);
      var now := NowTold(cfg, w, run, k, before);
      UsageFrom(cfg, next, run[1..], k, before + now);
      Strings.ConcatAssociative(before, now, RestoreTimes(cfg, next, run[1..], k));
    }
  }

  /** The first request of a run keeps the record in step with the history. */
  lemma NowTold(cfg: BrokerConfig, w: World, run: seq<Input>, k: CheckpointKey, before: seq<int>)
    returns (now: seq<int>)
    requires RootOk(cfg) && Inv(w) && run != [] && Admissible(cfg, w, run)
    requires k in After(cfg, w, run).store.checkpoints
    requires if k in w.store.checkpoints then Tells(w.store.checkpoints[k], before) else before == []
    ensures Inv(Step(cfg, w, run[0]))
    ensures now == if Restores(cfg, w.store, run[0], k) then [run[0].env.finished] else []
    ensures var next := Step(cfg, w, run[0]);
            if k in next.store.checkpoints then Tells(next.store.checkpoints[k], before + now) else before + now == []
  {
    var next, restored := Step(cfg, w, run[0]), Restores(cfg, w.store, run[0], k);
    now := if restored then [run[0].env.finished] else [];
    StepKeeps(cfg, w, run[0]);
    RestoresExactly(cfg, w, run[0], k);
    if k in next.store.checkpoints {
      StepUsage(cfg, w, run[0], k);
      TellsStep(w.store, next.store, run[0], k, restored, before);
    } else if k in w.store.checkpoints {
      GoneForever(cfg, next, run[1..], k);
    }
  }

  /**
   In every reachable state, a checkpoint's record holds the number of restores of it that
   clients were told succeeded, and the finishing time of the last of them.
   */
  lemma UsageIsHistory(cfg: BrokerConfig, run: seq<Input>, k: CheckpointKey)
    requires RootOk(cfg) && Admissible(cfg, EMPTY, run) && k in After(cfg, EMPTY, run).store.checkpoints
    ensures Tells(After(cfg, EMPTY, run).store.checkpoints[k], RestoreTimes(cfg, EMPTY, run, k))
  {
    UsageFrom(cfg, EMPTY, run, k, []);
    assert [] + RestoreTimes(cfg, EMPTY, run, k) == RestoreTimes(cfg, EMPTY, run, k);
  }
}
