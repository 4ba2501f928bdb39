/** Which checkpoint a job's default restore target is, read off the replies of a whole run. */
module BrokerTargets {
  import opened Broker
  import opened BrokerAnswers
  import opened BrokerInvariant
  import opened BrokerRuns
  import opened Outcomes
  import opened Paths
  import opened Stores

  /** The client was told that a checkpoint of `j` was taken. */
  ghost predicate Takes(cfg: BrokerConfig, s: State, i: Input, j: JobKey) {
    && i.request.command in {"checkpoint", "checkpoint-pid"}
    && Handle(cfg, s, i).reply.Accepted? && Handle(cfg, s, i).reply.job == j
  }

  /** The id of the last checkpoint of `j` that a client of the run was told was taken, or `before`. */
  ghost function LastTaken(cfg: BrokerConfig, w: World, run: seq<Input>, j: JobKey, before: string): string
    decreases |run|
  {
    if run == [] then before
    else
      var now := if Takes(cfg, w.store, run[0], j) then Handle(cfg, w.store, run[0]).reply.checkpointId else before;
      LastTaken(cfg, Step(cfg, w, run[0]), run[1..], j, now)
  }

  /** What each request does to the default targets. */
  ghost predicate TargetStep(s: State, t: State, j: JobKey, taken: Option<string>) {
    && (j in s.jobs ==> j in t.jobs)
    && (j in t.jobs ==>
          t.jobs[j].latestCheckpoint
          == if taken.Some? then taken.value else if j in s.jobs then s.jobs[j].latestCheckpoint else "")
  }

  ghost function TakenId(cfg: BrokerConfig, s: State, i: Input, j: JobKey): Option<string> {
    if Takes(cfg, s, i, j) then Some(Handle(cfg, s, i).reply.checkpointId) else None
  }

  lemma StepTargets(cfg: BrokerConfig, w: World, i: Input, j: JobKey)
    requires Inv(w) && RootOk(cfg) && Possible(w, i)
    ensures TargetStep(w.store, Step(cfg, w, i).store, j, TakenId(cfg, w.store, i, j))
  {
    if !Known(i.request.command) {
      UnknownRefused(cfg, w.store, i);
    } else if i.request.command in {"checkpoint", "checkpoint-pid"} {
      DumpRequestAnswered(cfg, w, i);
    } else {
      OtherTargets(cfg, w, i);
      assert !Takes(cfg, w.store, i, j);
    }
  }

  lemma OtherTargets(cfg: BrokerConfig, w: World, i: Input)
    requires Inv(w) && Possible(w, i) && i.request.command in {"run", "status", "restore"}
    ensures TargetsKept(w.store, Handle(cfg, w.store, i).store, None)
  {
    if i.request.command == "run" {
      RunAnswered(cfg, w, i);
    } else if i.request.command == "status" {
      StatusAnswered(cfg, w, i);
    } else {
      RestoreRequestAnswered(cfg, w, i);
    }
  }

  lemma {:induction false} TargetsFrom(cfg: BrokerConfig, w: World, run: seq<Input>, j: JobKey, before: string)
    requires RootOk(cfg) && Inv(w) && Admissible(cfg, w, run) && j in After(cfg, w, run).store.jobs
    requires before == if j in w.store.jobs then w.store.jobs[j].latestCheckpoint else ""
    ensures After(cfg, w, run).store.jobs[j].latestCheckpoint == LastTaken(cfg, w, run, j, before)
    decreases |run|
  {
    if run != [] {
      var next := Step(cfg, w, run[0]);
      StepTargets(cfg, w, run[0], j);
      StepKeeps(cfg, w, run[0]);
      if Takes(cfg, w.store, run[0], j) {
        TakenIsThere(cfg, w, run[0], j);
      }
      var taken := TakenId(cfg, w.store, run[0], j);
      TargetsFrom(cfg, next, run[1..], j, if taken.Some? then taken.value else before);
    }
  }

  /** A job a checkpoint of which was taken is there afterwards. */
  lemma TakenIsThere(cfg: BrokerConfig, w: World, i: Input, j: JobKey)
    requires Inv(w) && RootOk(cfg) && Possible(w, i) && Takes(cfg, w.store, i, j)
    ensures j in Step(cfg, w, i).store.jobs
  {
    DumpRequestAnswered(cfg, w, i);
  }

  /** In every reachable state a job's default target is the checkpoint last reported as taken of it. */
  lemma TargetIsLastTaken(cfg: BrokerConfig, run: seq<Input>, j: JobKey)
    requires RootOk(cfg) && Admissible(cfg, EMPTY, run) && j in After(cfg, EMPTY, run).store.jobs
    ensures After(cfg, EMPTY, run).store.jobs[j].latestCheckpoint == LastTaken(cfg, EMPTY, run, j, "")
  {
    TargetsFrom(cfg, EMPTY, run, j, "");
  }

  /** A restore that names no checkpoint is answered with the one last reported as taken. */
  lemma RestoresTheLastTaken(cfg: BrokerConfig, run: seq<Input>, i: Input)
    requires RootOk(cfg) && Admissible(cfg, EMPTY, run) && Possible(After(cfg, EMPTY, run), i)
    requires i.request.command == "restore" && i.request.Get("checkpoint_id") == ""
    requires Handle(cfg, After(cfg, EMPTY, run).store, i).reply.Accepted?
    ensures var j := JobKey(i.peer.uid, i.request.Get("job_id"));
            && Handle(cfg, After(cfg, EMPTY, run).store, i).reply == Accepted(j, LastTaken(cfg, EMPTY, run, j, ""))
            && LastTaken(cfg, EMPTY, run, j, "") != ""
  {
    var w := After(cfg, EMPTY, run);
    InvariantOverRuns(cfg, run);
    RestoreRequestAnswered(cfg, w, i);
    TargetIsLastTaken(cfg, run, JobKey(i.peer.uid, i.request.Get("job_id")));
  }
}
