/** What a user keeps through any number of other users' requests. */
module BrokerShelter {
  import opened Broker
  import opened BrokerInvariant
  import opened BrokerIsolation
  import opened BrokerRuns
  import opened Orders
  import opened Paths
  import opened Pruning
  import opened PruneTheorems
  import opened Retention
  import opened RetentionPolicy
  import opened RetentionTheorems
  import opened Stores

  /** The settings alone: no clock, and no request to protect a checkpoint of its own. */
  function Standing(cfg: BrokerConfig): Policy {
    Policy(cfg.retention, 0, "", "")
  }

  /** Protection looks at no size. */
  function NoSize(k: CheckpointKey): nat {
    0
  }

  /** The retention settings protect `k`, whoever makes the next request and whenever. */
  ghost predicate Sheltered(s: State, cfg: BrokerConfig, k: CheckpointKey) {
    && k in s.checkpoints && k.Job() in s.jobs
    && Protected(Candidates(s, NoSize), Standing(cfg), CandidateAt(s, NoSize, k))
  }

  // ---- Neither sizes nor the clock matter ----------------------------------------------------

  lemma NewerWhateverSize(s: State, m: Measure, n: Measure, k: CheckpointKey, id: string)
    requires k in s.checkpoints && k.Job() in s.jobs && id in NewerIds(Candidates(s, m), CandidateAt(s, m, k))
    ensures id in NewerIds(Candidates(s, n), CandidateAt(s, n, k))
  {
    var c, c' := CandidateAt(s, m, k), CandidateAt(s, n, k);
    var d :| d in Below(Newer, OfJob(Candidates(s, m), c.jobId), c) && d.checkpointId == id;
    var l :| l in s.checkpoints && l.Job() in s.jobs && d == CandidateAt(s, m, l);
    var d' := CandidateAt(s, n, l);
    assert d' in Candidates(s, n) && Newer(d', c');
    assert d' in Below(Newer, OfJob(Candidates(s, n), c'.jobId), c');
  }

  lemma ProtectedWhateverSize(s: State, m: Measure, cfg: BrokerConfig, now: int, k: CheckpointKey)
    requires k in s.checkpoints && k.Job() in s.jobs
    ensures Sheltered(s, cfg, k) <==>
            Protected(Candidates(s, m), Policy(cfg.retention, now, "", ""), CandidateAt(s, m, k))
  {
    var c, c' := CandidateAt(s, NoSize, k), CandidateAt(s, m, k);
    forall id ensures id in NewerIds(Candidates(s, NoSize), c) <==> id in NewerIds(Candidates(s, m), c') {
      if id in NewerIds(Candidates(s, NoSize), c) {
        NewerWhateverSize(s, NoSize, m, k, id);
      }
      if id in NewerIds(Candidates(s, m), c') {
        NewerWhateverSize(s, m, NoSize, k, id);
      }
    }
    assert NewerIds(Candidates(s, NoSize), c) == NewerIds(Candidates(s, m), c');
    assert Anchors(Standing(cfg), c) == Anchors(Policy(cfg.retention, now, "", ""), c');
  }

  // ---- One request of another user ---------------------------------------------------------------

  lemma SameJobCandidate(s: State, t: State, uid: nat, k: CheckpointKey)
    requires JobsIsolated(s, t, uid) && CheckpointsIsolated(s, t, uid)
    requires k in t.checkpoints && k.uid != uid && k.Job() in t.jobs
    ensures k in s.checkpoints && k.Job() in s.jobs && CandidateAt(t, NoSize, k) == CandidateAt(s, NoSize, k)
  {
    assert k.Job().uid != uid;
  }

  /** The candidates of another user's job afterwards are some of those before, among them all protected ones. */
  lemma JobCandidatesLeft(cfg: BrokerConfig, s: State, t: State, uid: nat, j: JobKey, env: Env)
    requires Prunable(s) && Prunable(t) && Isolated(s, t, uid, cfg, env) && j.uid != uid && j in s.jobs
    ensures var C, S := OfJob(Candidates(s, NoSize), j.jobId), OfJob(Candidates(t, NoSize), j.jobId);
            S <= C && forall c :: c in C && Protected(Candidates(s, NoSize), Standing(cfg), c) ==> c in S
  {
    var C, S := OfJob(Candidates(s, NoSize), j.jobId), OfJob(Candidates(t, NoSize), j.jobId);
    forall c | c in S ensures c in C {
      CandidateIsOfJob(t, NoSize, j, c);
      SameJobCandidate(s, t, uid, KeyOfCandidate(c));
    }
    forall c | c in C && Protected(Candidates(s, NoSize), Standing(cfg), c) ensures c in S {
      CandidateIsOfJob(s, NoSize, j, c);
      StaysHere(cfg, s, t, uid, KeyOfCandidate(c), env);
      SameJobCandidate(s, t, uid, KeyOfCandidate(c));
    }
  }

  lemma StaysHere(cfg: BrokerConfig, s: State, t: State, uid: nat, k: CheckpointKey, env: Env)
    requires Isolated(s, t, uid, cfg, env) && k.uid != uid && Sheltered(s, cfg, k)
    ensures k in t.checkpoints && k.Job() in t.jobs
  {
    ProtectedWhateverSize(s, env.measure, cfg, env.finished, k);
    assert k.Job().uid != uid;
  }

  /** Protection of one job depends on the candidates of that job alone. */
  lemma ProtectedInJob(C: set<Candidate>, p: Policy, c: Candidate)
    ensures Protected(OfJob(C, c.jobId), p, c) <==> Protected(C, p, c)
  {
    assert OfJob(OfJob(C, c.jobId), c.jobId) == OfJob(C, c.jobId);
  }

  lemma StillSheltered(cfg: BrokerConfig, s: State, t: State, uid: nat, k: CheckpointKey, env: Env)
    requires Prunable(s) && Prunable(t) && Isolated(s, t, uid, cfg, env) && k.uid != uid && Sheltered(s, cfg, k)
    ensures Sheltered(t, cfg, k) && SizeOnly(s.checkpoints[k], t.checkpoints[k])
  {
    StaysHere(cfg, s, t, uid, k, env);
    SameJobCandidate(s, t, uid, k);
    var c, p := CandidateAt(s, NoSize, k), Standing(cfg);
    var C, S := OfJob(Candidates(s, NoSize), c.jobId), OfJob(Candidates(t, NoSize), c.jobId);
    JobCandidatesLeft(cfg, s, t, uid, k.Job(), env);
    CandidatesIdentified(s, NoSize);
    forall d | d in ProtectedSet(C, p) ensures d in S {
      ProtectedInJob(Candidates(s, NoSize), p, d);
    }
    ProtectedInJob(Candidates(s, NoSize), p, c);
    ProtectionStable(C, S, p, c);
    ProtectedInJob(Candidates(t, NoSize), p, c);
  }

  // ---- Whole runs ------------------------------------------------------------------------------------

  /** What the retention settings protect survives any number of other users' requests, and stays protected. */
  lemma {:induction false} ShelteredSurvives(cfg: BrokerConfig, w: World, run: seq<Input>, k: CheckpointKey)
    requires RootOk(cfg) && Inv(w) && Admissible(cfg, w, run) && Sheltered(w.store, cfg, k)
    requires forall n :: 0 <= n < |run| ==> run[n].peer.uid != k.uid
    ensures var t := After(cfg, w, run).store;
            Sheltered(t, cfg, k) && SizeOnly(w.store.checkpoints[k], t.checkpoints[k])
    decreases |run|
  {
    if run != [] {
      var next := Step(cfg, w, run[0]);
      StepIsolated(cfg, w, run[0]);
      StepKeeps(cfg, w, run[0]);
      InvPrunable(w);
      InvPrunable(next);
      StillSheltered(cfg, w.store, next.store, run[0].peer.uid, k, run[0].env);
      ShelteredSurvives(cfg, next, run[1..], k);
    }
  }

  /** The sheltered ids of a job. */
  ghost function ShelteredOf(s: State, cfg: BrokerConfig, j: JobKey): set<CheckpointKey> {
    set k | k in CheckpointsOf(s, j) && Sheltered(s, cfg, k)
  }

  /** In a state the broker keeps, a job has its floor of sheltered checkpoints, or all are sheltered. */
  lemma FloorSheltered(cfg: BrokerConfig, w: World, j: JobKey)
    requires Inv(w) && j in w.store.jobs
    ensures |ShelteredOf(w.store, cfg, j)| >= cfg.retention.minKeepPerJob
            || ShelteredOf(w.store, cfg, j) == CheckpointsOf(w.store, j)
  {
    var s, p := w.store, Standing(cfg);
    var C := Candidates(s, NoSize);
    InvPrunable(w);
    CandidatesIdentified(s, NoSize);
    assert LatestOk(s, s.jobs[j]);
    forall c | c in OfJob(C, j.jobId) ensures Anchors(p, c) <= Ids(OfJob(C, j.jobId)) {
      AnchorsListed(s, p, NoSize, j, c);
    }
    ProtectedAtLeast(C, p, j.jobId);
    ShelteredAreProtected(cfg, s, j);
  }

  lemma ShelteredAreProtected(cfg: BrokerConfig, s: State, j: JobKey)
    requires Prunable(s) && j in s.jobs
    ensures var C := Candidates(s, NoSize);
            && |ShelteredOf(s, cfg, j)| == |ProtectedOf(C, Standing(cfg), j.jobId)|
            && (ProtectedOf(C, Standing(cfg), j.jobId) == OfJob(C, j.jobId) ==>
                  ShelteredOf(s, cfg, j) == CheckpointsOf(s, j))
  {
    var C, K := Candidates(s, NoSize), ShelteredOf(s, cfg, j);
    var P := ProtectedOf(C, Standing(cfg), j.jobId);
    forall id | id in Ids(P) ensures id in KeyIds(K) {
      var c :| c in P && c.checkpointId == id;
      CandidateIsOfJob(s, NoSize, j, c);
      assert KeyOfCandidate(c) in K;
    }
    forall k | k in CheckpointsOf(s, j) ensures CandidateAt(s, NoSize, k) in OfJob(C, j.jobId) {
      assert CandidateAt(s, NoSize, k) in C;
    }
    forall k | k in K ensures k.checkpointId in Ids(P) {
      assert CandidateAt(s, NoSize, k) in P;
    }
    assert Ids(P) == KeyIds(K);
    CandidatesIdentified(s, NoSize);
    IdsCard(P);
    KeyIdsCard(K, j);
  }

  /** So through any number of other users' requests a job keeps its floor of checkpoints, or all it had. */
  lemma FloorSurvivesOthers(cfg: BrokerConfig, w: World, run: seq<Input>, j: JobKey)
    requires RootOk(cfg) && Inv(w) && Admissible(cfg, w, run) && j in w.store.jobs
    requires forall n :: 0 <= n < |run| ==> run[n].peer.uid != j.uid
    ensures var t := After(cfg, w, run).store;
            |CheckpointsOf(t, j)| >= cfg.retention.minKeepPerJob || CheckpointsOf(w.store, j) <= CheckpointsOf(t, j)
  {
    var t := After(cfg, w, run).store;
    FloorSheltered(cfg, w, j);
    forall k | k in ShelteredOf(w.store, cfg, j) ensures k in CheckpointsOf(t, j) {
      ShelteredSurvives(cfg, w, run, k);
    }
    CardSubset(ShelteredOf(w.store, cfg, j), CheckpointsOf(t, j));
  }
}
