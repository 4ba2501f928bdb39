/** The dump and the restore of one stored checkpoint, against each other and against its record. */
module CriuRecords {
  import opened Broker
  import opened CriuCommand
  import opened CriuOptions
  import opened Decimal
  import opened Outcomes
  import opened Paths
  import opened Records
  import opened Stores
  import ExtraArgs
  import KeyValueText
  import Strings
  import Tokens

  lemma {:induction false} RenderBelow(p: Path, name: string)
    ensures Render(p + [name]) == Render(p) + "/" + name
  {
    if p == [] {
      assert p + [name] == [name] && [name][1..] == [];
    } else {
      assert (p + [name])[1..] == p[1..] + [name];
      RenderBelow(p[1..], name);
    }
  }

  /** Where a restore's worker leaves the pid, and the daemon looks for it. */
  function PidfilePath(root: Path, k: CheckpointKey): string {
    Render(CheckpointDir(root, k) + ["restore.pid"])
  }

  lemma WorkDirsApart(dir: string)
    ensures dir + "/work" != dir + "/restore-work"
  {
    assert |dir + "/work"| == |dir| + 5 && |dir + "/restore-work"| == |dir| + 13;
  }

  lemma LogNames(root: Path, k: CheckpointKey)
    ensures Render(CheckpointDir(root, k)) + "/logs/dump.log" == LogPath(root, k, "dump.log")
    ensures Render(CheckpointDir(root, k)) + "/logs/restore.log" == LogPath(root, k, "restore.log")
  {
    var dir := Render(CheckpointDir(root, k));
    Strings.ConcatAssociative(dir, "/logs/", "dump.log");
    Strings.ConcatAssociative(dir, "/logs/", "restore.log");
    assert "/logs/" + "dump.log" == "/logs/dump.log" && "/logs/" + "restore.log" == "/logs/restore.log";
  }

  lemma DumpOfStored(root: Path, k: CheckpointKey, criuBin: string, criuNsBin: string, pid: int,
                     namespaceMode: bool, ttyFd: int, extra: seq<string>)
    requires root != [] && Tokens.AllTokens(root, '/') && SafeId(k.jobId) && SafeId(k.checkpointId)
    requires IsAbsolute(criuBin) && (namespaceMode ==> IsAbsolute(criuNsBin)) && 1 < pid < TWO_31
    ensures var c := Launch(root, k, "dump", criuBin, criuNsBin, pid, namespaceMode, ttyFd, extra);
            var dir, command := Render(CheckpointDir(root, k)), DumpCommand(c);
            && |command| >= 2 && command[0] == (if namespaceMode then criuNsBin else criuBin) && command[1] == "dump"
            && ValueOf(command, "--images-dir") == Some(dir + "/images")
            && ValueOf(command, "--work-dir") == Some(dir + "/work")
            && ValueOf(command, "--log-file") == Some(LogPath(root, k, "dump.log"))
            && ValueOf(command, "-t").Some? && Stol(ValueOf(command, "-t").value) == Ok(pid)
            && "--leave-running" in command
  {
    StorePathsAccepted(root, k);
    DumpReads(Launch(root, k, "dump", criuBin, criuNsBin, pid, namespaceMode, ttyFd, extra));
    LogNames(root, k);
    StolToString(pid);
  }

  lemma RestoreOfStored(root: Path, k: CheckpointKey, criuBin: string, criuNsBin: string, pid: int,
                        namespaceMode: bool, ttyFd: int, extra: seq<string>)
    requires root != [] && Tokens.AllTokens(root, '/') && SafeId(k.jobId) && SafeId(k.checkpointId)
    requires IsAbsolute(criuBin) && (namespaceMode ==> IsAbsolute(criuNsBin))
    ensures var c := Launch(root, k, "restore", criuBin, criuNsBin, pid, namespaceMode, ttyFd, extra);
            var dir, command := Render(CheckpointDir(root, k)), RestoreCommand(c);
            && (!namespaceMode ==> |command| >= 2 && command[0] == criuBin && command[1] == "restore")
            && ValueOf(command, "--images-dir") == Some(dir + "/images")
            && ValueOf(command, "--work-dir") == Some(dir + "/restore-work")
            && ValueOf(command, "--log-file") == Some(LogPath(root, k, "restore.log"))
            && ValueOf(command, "--pidfile") == Some(PidfilePath(root, k))
  {
    StorePathsAccepted(root, k);
    RestoreReads(Launch(root, k, "restore", criuBin, criuNsBin, pid, namespaceMode, ttyFd, extra));
    LogNames(root, k);
    PidfileBelow(root, k);
  }

  lemma PidfileBelow(root: Path, k: CheckpointKey)
    ensures PidfilePath(root, k) == Render(CheckpointDir(root, k)) + "/restore.pid"
  {
    RenderBelow(CheckpointDir(root, k), "restore.pid");
    Strings.ConcatAssociative(Render(CheckpointDir(root, k)), "/", "restore.pid");
    assert "/" + "restore.pid" == "/restore.pid";
  }

  /**
   CRIU restores a stored checkpoint from the images its dump wrote, in a working directory of its own;
   the logs are where the record says; the pidfile is the one the daemon reads; and the process dumped is
   the one asked for, which is left running.
   */
  lemma DumpAndRestoreAgree(root: Path, job: JobRecord, env: Env, criuBin: string, criuNsBin: string, pid: int,
                            namespaceDump: bool, namespaceRestore: bool, ttyFd: int, dumpExtra: seq<string>,
                            restoreExtra: seq<string>)
    requires root != [] && Tokens.AllTokens(root, '/') && SafeId(job.jobId) && SafeId(env.freshCheckpoint)
    requires IsAbsolute(criuBin) && (namespaceDump || namespaceRestore ==> IsAbsolute(criuNsBin)) && 1 < pid < TWO_31
    ensures var k, record := CheckpointKeyOf(job, env.freshCheckpoint), NewCheckpoint(root, job, env);
            var dump := DumpCommand(Launch(root, k, "dump", criuBin, criuNsBin, pid, namespaceDump, ttyFd, dumpExtra));
            var restore := RestoreCommand(Launch(root, k, "restore", criuBin, criuNsBin, pid, namespaceRestore, ttyFd,
                                                 restoreExtra));
            && ValueOf(dump, "--images-dir").Some? && ValueOf(restore, "--images-dir") == ValueOf(dump, "--images-dir")
            && ValueOf(dump, "--work-dir").Some? && ValueOf(restore, "--work-dir").Some?
            && ValueOf(restore, "--work-dir") != ValueOf(dump, "--work-dir")
            && ValueOf(dump, "--log-file") == Some(record.dumpLog)
            && ValueOf(restore, "--log-file") == Some(record.restoreLog)
            && ValueOf(restore, "--pidfile") == Some(PidfilePath(root, k))
            && ValueOf(dump, "-t").Some? && Stol(ValueOf(dump, "-t").value) == Ok(pid)
            && "--leave-running" in dump
  {
    var k := CheckpointKeyOf(job, env.freshCheckpoint);
    DumpOfStored(root, k, criuBin, criuNsBin, pid, namespaceDump, ttyFd, dumpExtra);
    RestoreOfStored(root, k, criuBin, criuNsBin, pid, namespaceRestore, ttyFd, restoreExtra);
    WorkDirsApart(Render(CheckpointDir(root, k)));
  }

  /** The pid the worker writes, a number and a newline, is the pid the daemon reads. */
  lemma PidfileRoundTrip(pid: int)
    requires -TWO_31 <= pid < TWO_31
    ensures PidfileValue(ToString(pid) + "\n") == Ok(ToString(pid))
    ensures Stol(ToString(pid)) == Ok(pid) && ToInt32(pid) == pid
  {
    StolToString(pid);
    Narrow(pid);
    PidLineRead(ToString(pid));
  }

  lemma Narrow(n: int)
    requires -TWO_31 <= n < TWO_31
    ensures ToInt32(n) == n
  {}

  lemma PidLineRead(value: string)
    requires KeyValueText.LineFree(value)
    ensures PidfileValue(value + "\n") == Ok(value)
  {
    var line := KeyValueText.Entry("pid", value);
    LineIsToken(value);
    Tokens.SplitTerminated([line], '\n');
    OneLine(value);
    LineFolds(value);
  }

  lemma LineIsToken(value: string)
    requires KeyValueText.LineFree(value)
    ensures Tokens.IsToken(KeyValueText.Entry("pid", value), '\n')
  {}

  lemma LineFolds(value: string)
    ensures KeyValueText.FromLines([KeyValueText.Entry("pid", value)], map[]) == Ok(map["pid" := value])
  {
    var line := KeyValueText.Entry("pid", value);
    KeyValueText.EntrySplits("pid", value);
    assert [line][1..] == [];
  }

  lemma OneLine(value: string)
    ensures "pid=" + (value + "\n") == Tokens.Terminated([KeyValueText.Entry("pid", value)], '\n')
  {
    assert "pid" + "=" == "pid=";
    Strings.ConcatAssociative("pid=", value, "\n");
    assert Tokens.Terminated([], '\n') == "";
  }

  /** The worker is told three directories, each the next one's place in the layout. */
  lemma LaunchDirectories(root: Path, k: CheckpointKey, operation: string, criuBin: string, criuNsBin: string,
                          pid: int, namespaceMode: bool, ttyFd: int, extra: seq<string>)
    requires root != [] && Tokens.AllTokens(root, '/') && SafeId(k.jobId) && SafeId(k.checkpointId)
    ensures var c := Launch(root, k, operation, criuBin, criuNsBin, pid, namespaceMode, ttyFd, extra);
            && ParsePath(c.stateDir) == Resolve(root)
            && ParsePath(c.jobDir) == ParsePath(c.stateDir) + [ToString(k.uid), "jobs", k.jobId]
            && ParsePath(c.checkpointDir) == ParsePath(c.jobDir) + ["checkpoints", k.checkpointId]
  {
    LayoutIsTokens(root, k);
    ParseRender(root);
    ParseRender(JobDir(root, k.Job()));
    ParseRender(CheckpointDir(root, k));
    ResolvedBelow(root, k);
  }

  lemma ResolvedBelow(root: Path, k: CheckpointKey)
    requires SafeId(k.jobId) && SafeId(k.checkpointId)
    ensures Resolve(JobDir(root, k.Job())) == Resolve(root) + [ToString(k.uid), "jobs", k.jobId]
    ensures Resolve(CheckpointDir(root, k)) == Resolve(JobDir(root, k.Job())) + ["checkpoints", k.checkpointId]
  {
    LayoutResolves(root, k);
    TwoMore(Resolve(root), ToString(k.uid), "jobs", k.jobId, "checkpoints", k.checkpointId);
  }

  lemma TwoMore(p: Path, a: string, b: string, c: string, d: string, e: string)
    ensures p + [a, b, c, d, e] == p + [a, b, c] + [d, e]
  {}

  // ---- What a request cannot override ----------------------------------------------------------

  /** The options the worker sets itself. */
  predicate IsFixed(option: string) {
    option in {"-t", "-d", "--images-dir", "--work-dir", "--log-file", "--pidfile"}
  }

  lemma FlagIsNotFixed(token: string)
    requires ExtraArgs.IsFlag(token)
    ensures !IsFixed(token)
  {
    if Strings.StartsWith(token, "--ghost-limit=") {
      assert token[2] == "--ghost-limit="[2] == 'g';
    }
    assert "--link-remap"[2] == 'l' && |"--link-remap"| == 12 && "--file-locks"[2] == 'f';
    assert "--tcp-established"[2] == 't' && "--tcp-close"[2] == 't';
    assert "--images-dir"[2] == 'i' && "--work-dir"[2] == 'w' && |"--log-file"| == 10 && "--log-file"[2] == 'l';
    assert "--pidfile"[2] == 'p';
  }

  lemma PairIsNotFixed(token: string, value: string)
    requires ExtraArgs.IsPair(token, value)
    ensures !IsFixed(token)
  {
    assert "--ghost-limit"[2] == 'g' && "--external"[2] == 'e' && "--inherit-fd"[3] == 'n' && "--images-dir"[3] == 'm';
    assert "--images-dir"[2] == 'i' && "--work-dir"[2] == 'w' && "--log-file"[2] == 'l' && "--pidfile"[2] == 'p';
  }

  /** No accepted argument of a request is read as one of the worker's own options. */
  lemma {:induction false} NothingFixedAccepted(extra: seq<string>, option: string)
    requires ExtraArgs.Accepts(extra) && IsFixed(option)
    ensures option !in ExtraArgs.Heads(extra)
  {
    if extra != [] {
      if ExtraArgs.IsFlag(extra[0]) {
        FlagIsNotFixed(extra[0]);
        NothingFixedAccepted(extra[1..], option);
      } else {
        PairIsNotFixed(extra[0], extra[1]);
        NothingFixedAccepted(extra[2..], option);
      }
    }
  }
}
