/**
 The metadata store: text files under the state root. The ghost fields give the typed
 records the files stand for; `Valid` ties the two, so each method's contract says that
 the text store behaves as a map of typed records.
 */
module Stores {
  import opened Decimal
  import opened KeyValueText
  import opened Orders
  import opened Outcomes
  import opened Paths
  import opened Records

  /** The typed contents of a store. */
  datatype State = State(
    jobs: map<JobKey, JobRecord>,
    checkpoints: map<CheckpointKey, CheckpointRecord>,
    exports: set<CheckpointKey>)

  function KeyOf(job: JobRecord): JobKey {
    JobKey(job.ownerUid, job.jobId)
  }

  function CheckpointKeyOf(job: JobRecord, checkpointId: string): CheckpointKey {
    CheckpointKey(job.ownerUid, job.jobId, checkpointId)
  }

  /** What `SaveJob` accepts. */
  predicate JobSaves(job: JobRecord) {
    SafeId(job.jobId) && JobLineFree(job)
  }

  /** What `SaveCheckpoint` accepts. */
  predicate CheckpointSaves(job: JobRecord, c: CheckpointRecord) {
    SafeId(job.jobId) && SafeId(c.checkpointId) && CheckpointLineFree(c)
  }

  /** The id a restore request names, or the job's default. */
  function ResolveCheckpointId(job: JobRecord, requested: string): (r: Result<string>)
    ensures r.Ok? <==> SafeId(if requested != "" then requested else job.latestCheckpoint)
    ensures r.Ok? ==> SafeId(r.value) && r.value == if requested != "" then requested else job.latestCheckpoint
  {
    if requested != "" then
      if SafeId(requested) then Ok(requested) else Err("unsafe checkpoint_id")
    else if job.latestCheckpoint == "" then Err("job has no checkpoint")
    else if SafeId(job.latestCheckpoint) then Ok(job.latestCheckpoint)
    else Err("unsafe checkpoint_id")
  }

  // ---- The files stand for the records ------------------------------------------------

  type Files = map<Path, string>

  /** The files at `meta` hold, for each record, a text that reads as it. */
  ghost predicate StandFor<K(!new), R>(
    meta: K -> Path, read: string -> Result<R>, files: Files, records: map<K, R>)
  {
    && (forall k {:trigger meta(k)} :: k in records <==> meta(k) in files)
    && (forall k {:trigger meta(k)} :: k in records ==> read(files[meta(k)]) == Ok(records[k]))
  }

  /** Writing one record's file changes that record and no other. */
  lemma PutOwn<K(!new), R>(meta: K -> Path, read: string -> Result<R>, files: Files, records: map<K, R>,
                           key: K, record: R, text: string)
    requires StandFor(meta, read, files, records) && read(text) == Ok(record)
    requires forall k :: meta(k) == meta(key) ==> k == key
    ensures StandFor(meta, read, files[meta(key) := text], records[key := record])
  {}

  /** Writing a file that belongs to no record of this kind changes none of them. */
  lemma PutOther<K(!new), R>(meta: K -> Path, read: string -> Result<R>, files: Files, records: map<K, R>,
                             path: Path, text: string)
    requires StandFor(meta, read, files, records) && forall k :: meta(k) != path
    ensures StandFor(meta, read, files[path := text], records)
  {}

  /** The files left when one tree is removed. */
  function Pruned(files: Files, dir: Path): Files {
    map p | p in files && !Beneath(dir, p) :: files[p]
  }

  /** Removing a tree removes the records whose files lie in it and no others. */
  lemma PruneRecords<K(!new), R>(meta: K -> Path, read: string -> Result<R>, files: Files, records: map<K, R>,
                                 dir: Path, gone: set<K>)
    requires StandFor(meta, read, files, records)
    requires forall k :: Beneath(dir, meta(k)) <==> k in gone
    ensures StandFor(meta, read, Pruned(files, dir), records - gone)
  {}

  function JobMeta(root: Path): JobKey -> Path {
    k => JobMetaPath(root, k)
  }

  function CheckpointMeta(root: Path): CheckpointKey -> Path {
    k => CheckpointMetaPath(root, k)
  }

  /** Metadata files never collide, and a checkpoint's tree holds its own metadata only. */
  lemma MetaApart(root: Path, j: JobKey, c: CheckpointKey)
    ensures forall k :: JobMeta(root)(k) == JobMeta(root)(j) ==> k == j
    ensures forall k :: CheckpointMeta(root)(k) == CheckpointMeta(root)(c) ==> k == c
    ensures forall k :: JobMeta(root)(k) != CheckpointMeta(root)(c)
    ensures forall k :: CheckpointMeta(root)(k) != JobMeta(root)(j)
  {
    forall k ensures JobMeta(root)(k) == JobMeta(root)(j) ==> k == j {
      MetaPathsInjective(root, j, k, c);
    }
    forall k ensures CheckpointMeta(root)(k) == CheckpointMeta(root)(c) ==> k == c {
      CheckpointTreesDisjoint(root, k, c);
    }
    forall k ensures JobMeta(root)(k) != CheckpointMeta(root)(c) {
      MetaPathsInjective(root, k, k, c);
    }
    forall k ensures CheckpointMeta(root)(k) != JobMeta(root)(j) {
      MetaPathsInjective(root, j, j, k);
    }
  }

  lemma TreeApart(root: Path, c: CheckpointKey)
    ensures forall k :: Beneath(CheckpointDir(root, c), CheckpointMeta(root)(k)) <==> k in {c}
    ensures forall k :: Beneath(CheckpointDir(root, c), JobMeta(root)(k)) <==> k in {}
  {
    forall k ensures Beneath(CheckpointDir(root, c), CheckpointMeta(root)(k)) <==> k in {c} {
      CheckpointTreesDisjoint(root, c, k);
    }
    forall k ensures Beneath(CheckpointDir(root, c), JobMeta(root)(k)) <==> k in {} {
      JobMetaApart(root, c, k);
    }
  }

  ghost predicate Named(jobs: map<JobKey, JobRecord>, checkpoints: map<CheckpointKey, CheckpointRecord>) {
    && (forall k :: k in jobs ==> KeyOf(jobs[k]) == k && SafeId(k.jobId) && InRange(jobs[k]))
    && (forall k :: k in checkpoints ==> checkpoints[k].checkpointId == k.checkpointId && SafeId(k.checkpointId))
  }

  ghost predicate ExportsHold(root: Path, exportDirs: set<Path>, exports: set<CheckpointKey>) {
    forall k {:trigger ExportCheckpointDir(root, k)} :: k in exports <==> ExportCheckpointDir(root, k) in exportDirs
  }

  lemma RemoveExportTree(root: Path, exportDirs: set<Path>, exports: set<CheckpointKey>, key: CheckpointKey)
    requires ExportsHold(root, exportDirs, exports)
    ensures ExportsHold(root, PrunedDirs(exportDirs, ExportCheckpointDir(root, key)), exports - {key})
  {
    forall k { ExportsApart(root, key, k); }
  }

  function PrunedDirs(dirs: set<Path>, dir: Path): set<Path> {
    set p | p in dirs && !Beneath(dir, p)
  }

  lemma PutExportTree(root: Path, exportDirs: set<Path>, exports: set<CheckpointKey>, key: CheckpointKey)
    requires ExportsHold(root, exportDirs, exports)
    ensures ExportsHold(root, exportDirs + {ExportCheckpointDir(root, key)}, exports + {key})
  {
    forall k { ExportsApart(root, key, k); }
  }

  /** A real uid: `(uid_t) -1` names no user. */
  predicate IsUser(uid: nat) {
    uid < TWO_32 - 1
  }

  ghost predicate UserName(name: string) {
    exists uid: nat :: IsUser(uid) && name == ToString(uid)
  }

  /** The directories in the state root are named after users, every owner of a job among them. */
  ghost predicate UserDirsHold(userDirs: set<string>, jobs: map<JobKey, JobRecord>) {
    && (forall name :: name in userDirs ==> UserName(name))
    && (forall k :: k in jobs ==> IsUser(k.uid) && ToString(k.uid) in userDirs)
  }

  lemma NamedJob(jobs: map<JobKey, JobRecord>, checkpoints: map<CheckpointKey, CheckpointRecord>,
                 userDirs: set<string>, job: JobRecord)
    requires Named(jobs, checkpoints) && UserDirsHold(userDirs, jobs) && SafeId(job.jobId) && InRange(job)
    requires IsUser(job.ownerUid) && ToString(job.ownerUid) in userDirs
    ensures Named(jobs[KeyOf(job) := job], checkpoints) && UserDirsHold(userDirs, jobs[KeyOf(job) := job])
  {}

  lemma UserDirMade(userDirs: set<string>, jobs: map<JobKey, JobRecord>, uid: nat)
    requires UserDirsHold(userDirs, jobs) && IsUser(uid)
    ensures UserDirsHold(userDirs + {ToString(uid)}, jobs)
  {}

  /** The names a directory iterator finds in `dir`. */
  function Entries(files: Files, dir: Path): set<string> {
    set p | p in files && |p| > |dir| && p[..|dir|] == dir :: p[|dir|]
  }

  lemma EntryOf(files: Files, dir: Path, rest: Path)
    requires dir + rest in files && rest != []
    ensures rest[0] in Entries(files, dir)
  {
    var p := dir + rest;
    assert p[..|dir|] == dir && p[|dir|] == rest[0];
  }

  class Store {
    const root: Path
    var files: Files
    var userDirs: set<string>
    var exportDirs: set<Path>
    ghost var jobs: map<JobKey, JobRecord>
    ghost var checkpoints: map<CheckpointKey, CheckpointRecord>
    ghost var exports: set<CheckpointKey>

    ghost function View(): State
      reads this
    {
      State(jobs, checkpoints, exports)
    }

    ghost predicate Valid()
      reads this
    {
      && StandFor(JobMeta(root), ReadJob, files, jobs)
      && StandFor(CheckpointMeta(root), ReadCheckpoint, files, checkpoints)
      && Named(jobs, checkpoints)
      && ExportsHold(root, exportDirs, exports)
      && UserDirsHold(userDirs, jobs)
    }

    constructor (root: Path)
      ensures Valid() && this.root == root
      ensures View() == State(map[], map[], {}) && userDirs == {}
    {
      this.root := root;
      files, userDirs, exportDirs, jobs, checkpoints, exports := map[], {}, {}, map[], map[], {};
    }

    /** The user's directory is made before the record is written, and stays when the record is refused. */
    method SaveJob(job: JobRecord) returns (r: Result<()>)
      requires Valid() && InRange(job) && IsUser(job.ownerUid)
      modifies this`files, this`userDirs, this`jobs
      ensures Valid()
      ensures r.Ok? <==> JobSaves(job)
      ensures jobs == if r.Ok? then old(jobs)[KeyOf(job) := job] else old(jobs)
      ensures userDirs == if SafeId(job.jobId) then old(userDirs) + {ToString(job.ownerUid)} else old(userDirs)
    {
      var safe := IsSafeId(job.jobId);
      if !safe {
        return Err("unsafe job_id");
      }
      UserDirMade(userDirs, jobs, job.ownerUid);
      userDirs := userDirs + {ToString(job.ownerUid)};
      var text := WriteJob(job);
      if text.Err? {
        return Err(text.error);
      }
      WriteJobFile(job, text.value);
      r := Ok(());
    }

    method WriteJobFile(job: JobRecord, text: string)
      requires Valid() && SafeId(job.jobId) && InRange(job) && ReadJob(text) == Ok(job)
      requires IsUser(job.ownerUid) && ToString(job.ownerUid) in userDirs
      modifies this`files, this`jobs
      ensures Valid() && jobs == old(jobs)[KeyOf(job) := job]
    {
      var path := JobMeta(root)(KeyOf(job));
      MetaApart(root, KeyOf(job), CheckpointKey(job.ownerUid, job.jobId, ""));
      PutOwn(JobMeta(root), ReadJob, files, jobs, KeyOf(job), job, text);
      PutOther(CheckpointMeta(root), ReadCheckpoint, files, checkpoints, path, text);
      NamedJob(jobs, checkpoints, userDirs, job);
      files := files[path := text];
      jobs := jobs[KeyOf(job) := job];
    }

    method LoadJob(uid: nat, jobId: string) returns (r: Result<JobRecord>)
      requires Valid()
      ensures r.Ok? <==> SafeId(jobId) && JobKey(uid, jobId) in jobs
      ensures r.Ok? ==> r.value == jobs[JobKey(uid, jobId)]
    {
      var safe := IsSafeId(jobId);
      if !safe {
        return Err("unsafe job_id");
      }
      var path := JobMeta(root)(JobKey(uid, jobId));
      if path !in files {
        return Err("job not found");
      }
      assert ReadJob(files[path]) == Ok(jobs[JobKey(uid, jobId)]);
      r := ReadJobFile(files[path]);
    }

    method SaveCheckpoint(job: JobRecord, c: CheckpointRecord) returns (r: Result<()>)
      requires Valid() && IsUser(job.ownerUid)
      modifies this`files, this`userDirs, this`checkpoints
      ensures Valid()
      ensures r.Ok? <==> CheckpointSaves(job, c)
      ensures userDirs ==
              if SafeId(job.jobId) && SafeId(c.checkpointId) then old(userDirs) + {ToString(job.ownerUid)}
              else old(userDirs)
      ensures checkpoints ==
              if r.Ok? then old(checkpoints)[CheckpointKeyOf(job, c.checkpointId) := c] else old(checkpoints)
    {
      var safe := IsSafeId(c.checkpointId);
      var safeJob := IsSafeId(job.jobId);
      if !safe || !safeJob {
        return Err("unsafe id");
      }
      UserDirMade(userDirs, jobs, job.ownerUid);
      userDirs := userDirs + {ToString(job.ownerUid)};
      var text := WriteCheckpoint(c);
      if text.Err? {
        return Err(text.error);
      }
      WriteCheckpointFile(CheckpointKeyOf(job, c.checkpointId), c, text.value);
      r := Ok(());
    }

    method WriteCheckpointFile(key: CheckpointKey, c: CheckpointRecord, text: string)
      requires Valid() && key.checkpointId == c.checkpointId && SafeId(c.checkpointId) && ReadCheckpoint(text) == Ok(c)
      modifies this`files, this`checkpoints
      ensures Valid() && checkpoints == old(checkpoints)[key := c]
    {
      var path := CheckpointMeta(root)(key);
      MetaApart(root, key.Job(), key);
      PutOwn(CheckpointMeta(root), ReadCheckpoint, files, checkpoints, key, c, text);
      PutOther(JobMeta(root), ReadJob, files, jobs, path, text);
      files := files[path := text];
      checkpoints := checkpoints[key := c];
    }

    method LoadCheckpoint(job: JobRecord, checkpointId: string) returns (r: Result<CheckpointRecord>)
      requires Valid()
      ensures r.Ok? <==>
              SafeId(job.jobId) && SafeId(checkpointId) && CheckpointKeyOf(job, checkpointId) in checkpoints
      ensures r.Ok? ==> r.value == checkpoints[CheckpointKeyOf(job, checkpointId)]
    {
      var safeJob := IsSafeId(job.jobId);
      var safe := IsSafeId(checkpointId);
      if !safeJob || !safe {
        return Err("unsafe id");
      }
      var path := CheckpointMeta(root)(CheckpointKeyOf(job, checkpointId));
      if path !in files {
        return Err("checkpoint not found");
      }
      assert ReadCheckpoint(files[path]) == Ok(checkpoints[CheckpointKeyOf(job, checkpointId)]);
      r := ReadCheckpointFile(files[path]);
    }

    /** Both trees of a checkpoint go; every other record and export stays. */
    method RemoveCheckpoint(key: CheckpointKey)
      requires Valid()
      modifies this`files, this`exportDirs, this`checkpoints, this`exports
      ensures Valid()
      ensures checkpoints == old(checkpoints) - {key}
      ensures exports == old(exports) - {key}
    {
      var dir := CheckpointDir(root, key);
      TreeApart(root, key);
      PruneRecords(JobMeta(root), ReadJob, files, jobs, dir, {});
      PruneRecords(CheckpointMeta(root), ReadCheckpoint, files, checkpoints, dir, {key});
      RemoveExportTree(root, exportDirs, exports, key);
      files := Pruned(files, dir);
      assert jobs - {} == jobs;
      checkpoints := checkpoints - {key};
      exportDirs := PrunedDirs(exportDirs, ExportCheckpointDir(root, key));
      exports := exports - {key};
    }

    ghost predicate Listed(uid: nat, j: JobRecord)
      reads this
    {
      j.ownerUid == uid && KeyOf(j) in jobs && jobs[KeyOf(j)] == j
    }

    ghost predicate ListedOf(job: JobRecord, c: CheckpointRecord)
      reads this
    {
      var key := CheckpointKeyOf(job, c.checkpointId);
      key in checkpoints && checkpoints[key] == c
    }

    /** Every user with a directory, once each, in whatever order the state root yields. */
    method ListUsers() returns (users: seq<nat>)
      requires Valid()
      ensures NoDup(users)
      ensures forall u: nat :: u in users <==> IsUser(u) && ToString(u) in userDirs
      ensures forall k :: k in jobs ==> k.uid in users
    {
      var names := DirectoryIterator(userDirs);
      forall i | 0 <= i < |names| ensures UserName(names[i]) {
        assert names[i] in names;
      }
      users := UidsOf(names);
    }

    method EntryJob(uid: nat, name: string) returns (r: Option<JobRecord>)
      requires Valid()
      ensures r.Some? <==> JobKey(uid, name) in jobs
      ensures r.Some? ==> r.value == jobs[JobKey(uid, name)]
    {
      var path := JobMeta(root)(JobKey(uid, name));
      if path !in files {
        return None;
      }
      assert JobKey(uid, name) in jobs;
      var job := ReadJobFile(files[path]);
      r := Some(job.value);
    }

    lemma JobHasEntry(uid: nat, j: JobRecord)
      requires Valid() && Listed(uid, j)
      ensures j.jobId in Entries(files, JobsDir(root, uid))
    {
      assert JobMeta(root)(KeyOf(j)) == JobsDir(root, uid) + [j.jobId, "job.meta"];
      EntryOf(files, JobsDir(root, uid), [j.jobId, "job.meta"]);
    }

    /** Every job of a user, once each, in whatever order the directory yields. */
    method ListJobs(uid: nat) returns (list: seq<JobRecord>)
      requires Valid()
      ensures NoDup(list)
      ensures forall j :: j in list <==> Listed(uid, j)
    {
      var names := DirectoryIterator(Entries(files, JobsDir(root, uid)));
      list := [];
      for i := 0 to |names|
        invariant forall j :: j in list <==> Listed(uid, j) && j.jobId in names[..i]
        invariant NoDup(list)
      {
        var job := EntryJob(uid, names[i]);
        assert names[..i + 1] == names[..i] + [names[i]];
        assert names[i] !in names[..i];
        if job.Some? {
          list := list + [job.value];
        }
      }
      assert names[..|names|] == names;
      forall j | Listed(uid, j) ensures j in list {
        JobHasEntry(uid, j);
      }
    }

    method EntryCheckpoint(job: JobRecord, name: string) returns (r: Option<CheckpointRecord>)
      requires Valid()
      ensures r.Some? <==> CheckpointKeyOf(job, name) in checkpoints
      ensures r.Some? ==> r.value == checkpoints[CheckpointKeyOf(job, name)]
    {
      var path := CheckpointMeta(root)(CheckpointKeyOf(job, name));
      if path !in files {
        return None;
      }
      assert CheckpointKeyOf(job, name) in checkpoints;
      var c := ReadCheckpointFile(files[path]);
      r := Some(c.value);
    }

    lemma CheckpointHasEntry(job: JobRecord, c: CheckpointRecord)
      requires Valid() && ListedOf(job, c)
      ensures c.checkpointId in Entries(files, CheckpointsDir(root, KeyOf(job)))
    {
      var rest := [c.checkpointId, "checkpoint.meta"];
      assert CheckpointMeta(root)(CheckpointKeyOf(job, c.checkpointId)) == CheckpointsDir(root, KeyOf(job)) + rest;
      EntryOf(files, CheckpointsDir(root, KeyOf(job)), rest);
    }

    /** Every checkpoint of a job, once each, in whatever order the directory yields. */
    method ListCheckpoints(job: JobRecord) returns (list: seq<CheckpointRecord>)
      requires Valid()
      ensures NoDup(list)
      ensures forall c :: c in list <==> ListedOf(job, c)
    {
      var names := DirectoryIterator(Entries(files, CheckpointsDir(root, KeyOf(job))));
      list := [];
      for i := 0 to |names|
        invariant forall c :: c in list <==> ListedOf(job, c) && c.checkpointId in names[..i]
        invariant NoDup(list)
      {
        var c := EntryCheckpoint(job, names[i]);
        assert names[..i + 1] == names[..i] + [names[i]];
        assert names[i] !in names[..i];
        if c.Some? {
          list := list + [c.value];
        }
      }
      assert names[..|names|] == names;
      forall c | ListedOf(job, c) ensures c in list {
        CheckpointHasEntry(job, c);
      }
    }

    /** The read-only copy handed to the user, replaced if present. */
    method ExportCheckpointArtifacts(key: CheckpointKey)
      requires Valid() && IsUser(key.uid)
      modifies this`userDirs, this`exportDirs, this`exports
      ensures Valid()
      ensures exports == old(exports) + {key} && userDirs == old(userDirs) + {ToString(key.uid)}
    {
      UserDirMade(userDirs, jobs, key.uid);
      userDirs := userDirs + {ToString(key.uid)};
      PutExportTree(root, exportDirs, exports, key);
      exportDirs := exportDirs + {ExportCheckpointDir(root, key)};
      exports := exports + {key};
    }
  }

  /** The uid a user directory is named after. */
  lemma UserNameReads(name: string) returns (uid: nat)
    requires UserName(name)
    ensures IsUser(uid) && name == ToString(uid)
    ensures Stoul(name) == Ok(uid) && ToUint32(uid) == uid
  {
    uid :| IsUser(uid) && name == ToString(uid);
    IdText(uid);
  }

  /** The names in a directory, once each, in no particular order. */
  method DirectoryIterator(entries: set<string>) returns (names: seq<string>)
    ensures NoDup(names) && forall n :: n in names <==> n in entries
  {
    var left := entries;
    names := [];
    while left != {}
      invariant NoDup(names)
      invariant forall n :: n in names ==> n !in left
      invariant forall n :: n in entries <==> n in names || n in left
      decreases |left|
    {
      var name :| name in left;
      names := names + [name];
      left := left - {name};
    }
  }

  method UidsOf(names: seq<string>) returns (users: seq<nat>)
    requires NoDup(names) && forall i :: 0 <= i < |names| ==> UserName(names[i])
    ensures NoDup(users)
    ensures forall u: nat :: u in users <==> IsUser(u) && ToString(u) in names
  {
    users := [];
    for i := 0 to |names|
      invariant |users| == i && forall j :: 0 <= j < i ==> IsUser(users[j]) && ToString(users[j]) == names[j]
    {
      ghost var uid := UserNameReads(names[i]);
      var parsed := Stoul(names[i]);
      if parsed.Ok? {
        users := users + [ToUint32(parsed.value)];
      }
    }
    SameUsers(names, users);
  }

  lemma SameUsers(names: seq<string>, users: seq<nat>)
    requires NoDup(names) && |users| == |names|
    requires forall j :: 0 <= j < |users| ==> IsUser(users[j]) && ToString(users[j]) == names[j]
    ensures NoDup(users)
    ensures forall u: nat :: u in users <==> IsUser(u) && ToString(u) in names
  {
    forall u: nat ensures u in users <==> IsUser(u) && ToString(u) in names {
      UserAmong(names, users, u);
    }
  }

  lemma UserAmong(names: seq<string>, users: seq<nat>, u: nat)
    requires |users| == |names|
    requires forall j :: 0 <= j < |users| ==> IsUser(users[j]) && ToString(users[j]) == names[j]
    ensures u in users <==> IsUser(u) && ToString(u) in names
  {
    if u in users {
      var j :| 0 <= j < |users| && users[j] == u;
      assert names[j] in names;
    }
    if ToString(u) in names {
      var j :| 0 <= j < |names| && names[j] == ToString(u);
      ToStringInjective(u, users[j]);
    }
  }

  method ReadJobFile(text: string) returns (r: Result<JobRecord>)
    ensures r == ReadJob(text)
  {
    var data := ParseKeyValueText(text);
    if data.Err? {
      return Err(data.error);
    }
    return ParseJobRecord(data.value);
  }

  method ReadCheckpointFile(text: string) returns (r: Result<CheckpointRecord>)
    ensures r == ReadCheckpoint(text)
  {
    var data := ParseKeyValueText(text);
    if data.Err? {
      return Err(data.error);
    }
    return ParseCheckpointRecord(data.value);
  }

  /** The text of a job, when it can be saved. */
  method WriteJob(job: JobRecord) returns (r: Result<string>)
    requires InRange(job)
    ensures r.Ok? <==> JobSaves(job)
    ensures r.Ok? ==> ReadJob(r.value) == Ok(job)
  {
    var safe := IsSafeId(job.jobId);
    if !safe {
      return Err("unsafe job_id");
    }
    JobSerializable(job);
    r := SerializeKeyValueMap(JobFields(job));
    if r.Ok? {
      JobTextRoundTrip(job);
    }
  }

  /** The text of a checkpoint, when it can be saved. */
  method WriteCheckpoint(c: CheckpointRecord) returns (r: Result<string>)
    ensures r.Ok? <==> SafeId(c.checkpointId) && CheckpointLineFree(c)
    ensures r.Ok? ==> ReadCheckpoint(r.value) == Ok(c)
  {
    var safe := IsSafeId(c.checkpointId);
    if !safe {
      return Err("unsafe checkpoint_id");
    }
    CheckpointSerializable(c);
    r := SerializeKeyValueMap(CheckpointFields(c));
    if r.Ok? {
      CheckpointTextRoundTrip(c);
    }
  }
}
