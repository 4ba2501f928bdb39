/** Job and checkpoint records and their stored field maps. */
module Records {
  import opened Decimal
  import opened KeyValueText
  import opened Outcomes

  datatype JobRecord = JobRecord(
    jobId: string,
    ownerUid: nat,
    ownerGid: nat,
    pid: int,
    startTimeTicks: string,
    executable: string,
    cwd: string,
    commandLine: string,
    state: string,
    createdAt: string,
    latestCheckpoint: string)

  datatype CheckpointRecord = CheckpointRecord(
    checkpointId: string,
    jobId: string,
    state: string,
    createdAt: string,
    lastRestoredAt: string,
    restoreCount: string,
    sizeBytes: string,
    dumpLog: string,
    restoreLog: string,
    restoredPid: string)

  /** The values a C++ record can hold: 32-bit ids. */
  predicate InRange(job: JobRecord) {
    job.ownerUid < TWO_32 && job.ownerGid < TWO_32 && -TWO_31 <= job.pid < TWO_31
  }

  function JobFields(job: JobRecord): map<string, string> {
    map[
      "job_id" := job.jobId,
      "owner_uid" := ToString(job.ownerUid),
      "owner_gid" := ToString(job.ownerGid),
      "pid" := ToString(job.pid),
      "start_time_ticks" := job.startTimeTicks,
      "executable" := job.executable,
      "cwd" := job.cwd,
      "command_line" := job.commandLine,
      "state" := job.state,
      "created_at" := job.createdAt,
      "latest_checkpoint" := job.latestCheckpoint]
  }

  function CheckpointFields(c: CheckpointRecord): map<string, string> {
    map[
      "checkpoint_id" := c.checkpointId,
      "job_id" := c.jobId,
      "state" := c.state,
      "created_at" := c.createdAt,
      "last_restored_at" := c.lastRestoredAt,
      "restore_count" := c.restoreCount,
      "size_bytes" := c.sizeBytes,
      "dump_log" := c.dumpLog,
      "restore_log" := c.restoreLog,
      "restored_pid" := c.restoredPid]
  }

  /** `std::map::at`. */
  function At(data: map<string, string>, key: string): Result<string> {
    if key in data then Ok(data[key]) else Err("map::at")
  }

  /** A field that older metadata may lack. */
  function Optional(data: map<string, string>, key: string): string {
    if key in data then data[key] else ""
  }

  function ParseJobRecord(data: map<string, string>): Result<JobRecord> {
    var jobId :- At(data, "job_id");
    var uidText :- At(data, "owner_uid");
    var uid :- Stoul(uidText);
    var gidText :- At(data, "owner_gid");
    var gid :- Stoul(gidText);
    var pidText :- At(data, "pid");
    var pid :- Stol(pidText);
    var executable :- At(data, "executable");
    var cwd :- At(data, "cwd");
    var commandLine :- At(data, "command_line");
    var state :- At(data, "state");
    var createdAt :- At(data, "created_at");
    Ok(JobRecord(jobId, ToUint32(uid), ToUint32(gid), ToInt32(pid), Optional(data, "start_time_ticks"),
                 executable, cwd, commandLine, state, createdAt, Optional(data, "latest_checkpoint")))
  }

  function ParseCheckpointRecord(data: map<string, string>): Result<CheckpointRecord> {
    var checkpointId :- At(data, "checkpoint_id");
    var jobId :- At(data, "job_id");
    var state :- At(data, "state");
    var createdAt :- At(data, "created_at");
    var dumpLog :- At(data, "dump_log");
    var restoreLog :- At(data, "restore_log");
    Ok(CheckpointRecord(checkpointId, jobId, state, createdAt, Optional(data, "last_restored_at"),
                        Optional(data, "restore_count"), Optional(data, "size_bytes"),
                        dumpLog, restoreLog, Optional(data, "restored_pid")))
  }

  lemma JobLookups(job: JobRecord, uid: string, gid: string, pid: string)
    requires uid == ToString(job.ownerUid) && gid == ToString(job.ownerGid) && pid == ToString(job.pid)
    ensures var d := JobFields(job);
            && At(d, "job_id") == Ok(job.jobId) && At(d, "owner_uid") == Ok(uid)
            && At(d, "owner_gid") == Ok(gid) && At(d, "pid") == Ok(pid)
            && Optional(d, "start_time_ticks") == job.startTimeTicks
            && At(d, "executable") == Ok(job.executable) && At(d, "cwd") == Ok(job.cwd)
            && At(d, "command_line") == Ok(job.commandLine) && At(d, "state") == Ok(job.state)
            && At(d, "created_at") == Ok(job.createdAt)
            && Optional(d, "latest_checkpoint") == job.latestCheckpoint
  {}

  lemma JobFieldsRoundTrip(job: JobRecord)
    requires InRange(job)
    ensures ParseJobRecord(JobFields(job)) == Ok(job)
  {
    var uid, gid, pid := ToString(job.ownerUid), ToString(job.ownerGid), ToString(job.pid);
    JobLookups(job, uid, gid, pid);
    IdText(job.ownerUid);
    IdText(job.ownerGid);
    PidText(job.pid);
  }

  lemma IdText(id: nat)
    requires id < TWO_32
    ensures Stoul(ToString(id)) == Ok(id) && ToUint32(id) == id
  {
    StoulToString(id);
  }

  lemma PidText(pid: int)
    requires -TWO_31 <= pid < TWO_31
    ensures Stol(ToString(pid)) == Ok(pid) && ToInt32(pid) == pid
  {
    StolToString(pid);
  }

  lemma CheckpointFieldsRoundTrip(c: CheckpointRecord)
    ensures ParseCheckpointRecord(CheckpointFields(c)) == Ok(c)
  {}

  // ---- Through the text ---------------------------------------------------------

  predicate JobLineFree(job: JobRecord) {
    && LineFree(job.jobId) && LineFree(job.startTimeTicks) && LineFree(job.executable) && LineFree(job.cwd)
    && LineFree(job.commandLine) && LineFree(job.state) && LineFree(job.createdAt)
    && LineFree(job.latestCheckpoint)
  }

  predicate CheckpointLineFree(c: CheckpointRecord) {
    && LineFree(c.checkpointId) && LineFree(c.jobId) && LineFree(c.state) && LineFree(c.createdAt)
    && LineFree(c.lastRestoredAt) && LineFree(c.restoreCount) && LineFree(c.sizeBytes)
    && LineFree(c.dumpLog) && LineFree(c.restoreLog) && LineFree(c.restoredPid)
  }

  lemma SharedKeysAreClean()
    ensures KeyClean("job_id") && KeyClean("state") && KeyClean("created_at")
  {}

  lemma JobKeysAreClean()
    ensures KeyClean("owner_uid") && KeyClean("owner_gid") && KeyClean("pid") && KeyClean("cwd")
    ensures KeyClean("start_time_ticks") && KeyClean("executable")
    ensures KeyClean("command_line") && KeyClean("latest_checkpoint")
  {
    LongJobKeysAreClean();
  }

  lemma LongJobKeysAreClean()
    ensures KeyClean("start_time_ticks") && KeyClean("executable")
    ensures KeyClean("command_line") && KeyClean("latest_checkpoint")
  {}

  lemma CheckpointKeysAreClean()
    ensures KeyClean("checkpoint_id") && KeyClean("last_restored_at") && KeyClean("restore_count")
    ensures KeyClean("size_bytes") && KeyClean("dump_log") && KeyClean("restore_log") && KeyClean("restored_pid")
  {
    LongCheckpointKeysAreClean();
  }

  lemma LongCheckpointKeysAreClean()
    ensures KeyClean("checkpoint_id") && KeyClean("last_restored_at") && KeyClean("restore_count")
  {}

  lemma IdsLineFree(job: JobRecord)
    ensures LineFree(ToString(job.ownerUid)) && LineFree(ToString(job.ownerGid)) && LineFree(ToString(job.pid))
  {}

  /** A saved job is written exactly when no field holds a newline. */
  lemma JobSerializable(job: JobRecord)
    ensures Serializable(JobFields(job)) <==> JobLineFree(job)
  {
    var d := JobFields(job);
    SharedKeysAreClean();
    JobKeysAreClean();
    IdsLineFree(job);
    JobLookups(job, ToString(job.ownerUid), ToString(job.ownerGid), ToString(job.pid));
    assert JobLineFree(job) <==>
      && Clean("job_id", d["job_id"]) && Clean("start_time_ticks", d["start_time_ticks"])
      && Clean("executable", d["executable"]) && Clean("cwd", d["cwd"])
      && Clean("command_line", d["command_line"]) && Clean("state", d["state"])
      && Clean("created_at", d["created_at"]) && Clean("latest_checkpoint", d["latest_checkpoint"]);
  }

  /** A saved checkpoint is written exactly when no field holds a newline. */
  lemma CheckpointSerializable(c: CheckpointRecord)
    ensures Serializable(CheckpointFields(c)) <==> CheckpointLineFree(c)
  {
    var d := CheckpointFields(c);
    SharedKeysAreClean();
    CheckpointKeysAreClean();
    assert CheckpointLineFree(c) <==>
      && Clean("checkpoint_id", d["checkpoint_id"]) && Clean("job_id", d["job_id"])
      && Clean("state", d["state"]) && Clean("created_at", d["created_at"])
      && Clean("last_restored_at", d["last_restored_at"]) && Clean("restore_count", d["restore_count"])
      && Clean("size_bytes", d["size_bytes"]) && Clean("dump_log", d["dump_log"])
      && Clean("restore_log", d["restore_log"]) && Clean("restored_pid", d["restored_pid"]);
  }

  /** What loading a metadata file yields. */
  function ReadJob(text: string): Result<JobRecord> {
    var data :- Parse(text);
    ParseJobRecord(data)
  }

  function ReadCheckpoint(text: string): Result<CheckpointRecord> {
    var data :- Parse(text);
    ParseCheckpointRecord(data)
  }

  /** Saving then loading a job returns every field, the numeric ids included. */
  lemma JobTextRoundTrip(job: JobRecord)
    requires InRange(job) && JobLineFree(job)
    ensures ReadJob(Text(JobFields(job))) == Ok(job)
  {
    JobSerializable(job);
    RoundTrip(JobFields(job));
    JobFieldsRoundTrip(job);
  }

  /** Saving then loading a checkpoint returns every field. */
  lemma CheckpointTextRoundTrip(c: CheckpointRecord)
    requires CheckpointLineFree(c)
    ensures ReadCheckpoint(Text(CheckpointFields(c))) == Ok(c)
  {
    CheckpointSerializable(c);
    RoundTrip(CheckpointFields(c));
    CheckpointFieldsRoundTrip(c);
  }
}
