/** The worker's checks and the fixed CRIU commands it runs. */
module CriuCommand {
  import opened CriuOptions
  import opened Decimal
  import opened ExtraArgs
  import opened Outcomes
  import opened Paths
  import opened Strings
  import opened Tokens
  import opened WorkerCommand

  predicate IsAbsolute(path: string) {
    path != "" && path[0] == '/'
  }

  /** An option is present as itself or with `=value`. */
  predicate IsOption(arg: string, token: string) {
    arg == token || StartsWith(arg, token + "=")
  }

  predicate HasArg(args: seq<string>, token: string) {
    exists i :: 0 <= i < |args| && IsOption(args[i], token)
  }

  method ContainsArg(args: seq<string>, token: string) returns (found: bool)
    ensures found <==> HasArg(args, token)
  {
    for i := 0 to |args|
      invariant forall j :: 0 <= j < i ==> !IsOption(args[j], token)
    {
      if IsOption(args[i], token) {
        return true;
      }
    }
    return false;
  }

  // ---- Checks ---------------------------------------------------------------------------

  /** What the worker demands before any privileged command. */
  predicate Runnable(c: WorkerConfig) {
    && (c.operation == "dump" || c.operation == "restore")
    && IsAbsolute(c.criuBin)
    && (c.namespaceDump || c.namespaceRestore ==> IsAbsolute(c.criuNsBin))
    && IsAbsolute(c.stateDir) && IsAbsolute(c.jobDir) && IsAbsolute(c.checkpointDir)
    && Beneath(ParsePath(c.stateDir), ParsePath(c.jobDir))
    && Beneath(ParsePath(c.jobDir), ParsePath(c.checkpointDir))
    && (c.operation == "dump" ==> c.pid > 1)
  }

  method ValidateWorkerConfig(c: WorkerConfig) returns (r: Result<()>)
    ensures r.Ok? <==> Runnable(c)
  {
    if c.operation != "dump" && c.operation != "restore" {
      return Err("unsupported worker operation");
    }
    if !IsAbsolute(c.criuBin) {
      return Err("criu path must be absolute");
    }
    if (c.namespaceDump || c.namespaceRestore) && !IsAbsolute(c.criuNsBin) {
      return Err("criu-ns path must be absolute when namespace mode is enabled");
    }
    if !IsAbsolute(c.stateDir) || !IsAbsolute(c.jobDir) || !IsAbsolute(c.checkpointDir) {
      return Err("worker paths must be absolute");
    }
    var jobBeneath := IsPathBeneath(ParsePath(c.stateDir), ParsePath(c.jobDir));
    if !jobBeneath {
      return Err("job dir is outside state dir");
    }
    var checkpointBeneath := IsPathBeneath(ParsePath(c.jobDir), ParsePath(c.checkpointDir));
    if !checkpointBeneath {
      return Err("checkpoint dir is outside job dir");
    }
    if c.operation == "dump" && c.pid <= 1 {
      return Err("dump requires a valid positive pid");
    }
    return Ok(());
  }

  // ---- Commands ------------------------------------------------------------------------------

  /** The binary, directly or under the namespace wrapper. */
  function DumpFront(c: WorkerConfig): seq<string> {
    if c.namespaceDump then [c.criuNsBin, "dump", "--criu-binary", c.criuBin] else [c.criuBin, "dump"]
  }

  function RestoreFront(c: WorkerConfig): seq<string> {
    if c.namespaceRestore then [] else [c.criuBin, "restore"]
  }

  function DumpPrefix(c: WorkerConfig): seq<string> {
    DumpFront(c) +
    ["--no-default-config", "-t", ToString(c.pid),
     "--images-dir", c.checkpointDir + "/images",
     "--work-dir", c.checkpointDir + "/work",
     "--log-file", c.checkpointDir + "/logs/dump.log",
     "--leave-running", "--shell-job"]
  }

  function RestorePrefix(c: WorkerConfig): seq<string> {
    RestoreFront(c) +
    ["--no-default-config",
     "--images-dir", c.checkpointDir + "/images",
     "--work-dir", c.checkpointDir + "/restore-work",
     "--log-file", c.checkpointDir + "/logs/restore.log",
     "--pidfile", c.checkpointDir + "/restore.pid",
     "--shell-job", "-d"]
  }

  /** Defaults for the options the request did not give. */
  function Defaults(extra: seq<string>): seq<string> {
    (if HasArg(extra, "--ghost-limit") then [] else ["--ghost-limit=64M"]) +
    (if HasArg(extra, "--link-remap") then [] else ["--link-remap"])
  }

  function DumpCommand(c: WorkerConfig): seq<string> {
    DumpPrefix(c) + Defaults(c.extraArgs) + c.extraArgs
  }

  function RestoreCommand(c: WorkerConfig): seq<string> {
    RestorePrefix(c) + Defaults(c.extraArgs) + c.extraArgs
  }

  method WithDefaults(prefix: seq<string>, extra: seq<string>) returns (command: seq<string>)
    ensures command == prefix + Defaults(extra) + extra
  {
    command := prefix;
    ghost var defaults: seq<string> := [];
    var hasLimit := ContainsArg(extra, "--ghost-limit");
    if !hasLimit {
      command := command + ["--ghost-limit=64M"];
      defaults := ["--ghost-limit=64M"];
    }
    var hasRemap := ContainsArg(extra, "--link-remap");
    if !hasRemap {
      command := command + ["--link-remap"];
      defaults := defaults + ["--link-remap"];
    }
    assert defaults == Defaults(extra) && command == prefix + defaults;
    command := command + extra;
  }

  method BuildDumpCommand(c: WorkerConfig) returns (r: Result<seq<string>>)
    ensures r.Ok? <==> Runnable(c)
    ensures r.Ok? ==> r.value == DumpCommand(c) && DumpRead(c, r.value)
  {
    var valid := ValidateWorkerConfig(c);
    if valid.Err? {
      return Err(valid.error);
    }
    var command := WithDefaults(DumpPrefix(c), c.extraArgs);
    DumpReads(c);
    r := Ok(command);
  }

  method BuildRestoreCommand(c: WorkerConfig) returns (r: Result<seq<string>>)
    ensures r.Ok? <==> Runnable(c)
    ensures r.Ok? ==> r.value == RestoreCommand(c) && RestoreRead(c, r.value)
  {
    var valid := ValidateWorkerConfig(c);
    if valid.Err? {
      return Err(valid.error);
    }
    var command := WithDefaults(RestorePrefix(c), c.extraArgs);
    RestoreReads(c);
    r := Ok(command);
  }

  // ---- What the finished commands say ------------------------------------------------------------

  /** A dump reads as: this binary, this process, these directories, leave it running, whatever else was asked. */
  predicate DumpRead(c: WorkerConfig, command: seq<string>) {
    && |command| >= 2 && command[1] == "dump" && command[0] == (if c.namespaceDump then c.criuNsBin else c.criuBin)
    && (c.namespaceDump ==> ValueOf(command, "--criu-binary") == Some(c.criuBin))
    && ValueOf(command, "-t") == Some(ToString(c.pid))
    && ValueOf(command, "--images-dir") == Some(c.checkpointDir + "/images")
    && ValueOf(command, "--work-dir") == Some(c.checkpointDir + "/work")
    && ValueOf(command, "--log-file") == Some(c.checkpointDir + "/logs/dump.log")
    && "--no-default-config" in command && "--leave-running" in command && "--shell-job" in command
  }

  /** A restore reads as: the same images, a working directory of its own, the pidfile, detached. */
  predicate RestoreRead(c: WorkerConfig, command: seq<string>) {
    && (!c.namespaceRestore ==> |command| >= 2 && command[0] == c.criuBin && command[1] == "restore")
    && ValueOf(command, "--images-dir") == Some(c.checkpointDir + "/images")
    && ValueOf(command, "--work-dir") == Some(c.checkpointDir + "/restore-work")
    && ValueOf(command, "--log-file") == Some(c.checkpointDir + "/logs/restore.log")
    && ValueOf(command, "--pidfile") == Some(c.checkpointDir + "/restore.pid")
    && "--no-default-config" in command && "--shell-job" in command && "-d" in command
  }

  lemma AbsoluteIsPlain(path: string, name: string)
    requires IsAbsolute(path)
    ensures IsPlain(path) && IsPlain(path + name)
  {}

  lemma NumberIsPlain(n: int)
    ensures IsPlain(ToString(n))
  {
    if n < 0 {
      assert IsDigit(Digits(-n)[0]);
    } else {
      assert IsDigit(Digits(n)[0]);
    }
  }

  /** The worker's options are told apart. */
  lemma OptionsDiffer()
    ensures Differs("--no-default-config", "-t") && Differs("--no-default-config", "--images-dir")
    ensures Differs("--no-default-config", "--work-dir") && Differs("--no-default-config", "--log-file")
    ensures Differs("--no-default-config", "--pidfile") && Differs("-t", "--images-dir")
    ensures Differs("-t", "--work-dir") && Differs("-t", "--log-file")
    ensures Differs("--images-dir", "--work-dir") && Differs("--images-dir", "--log-file")
    ensures Differs("--images-dir", "--pidfile") && Differs("--work-dir", "--log-file")
    ensures Differs("--work-dir", "--pidfile") && Differs("--log-file", "--pidfile")
  {
    assert |"--no-default-config"| == 19 && |"--images-dir"| == 12 && |"--pidfile"| == 9;
    assert |"--work-dir"| == 10 && |"--log-file"| == 10 && "--work-dir"[2] == 'w' && "--log-file"[2] == 'l';
  }

  lemma WordsArePlain()
    ensures IsPlain("dump") && IsPlain("restore")
  {
    assert "dump"[0] == 'd' && "restore"[0] == 'r';
  }

  /** Every token before position `n` is plain or another option. */
  predicate Passed(command: seq<string>, n: nat, option: string)
    requires n <= |command|
  {
    forall m :: 0 <= m < n ==> IsPlain(command[m]) || Differs(command[m], option)
  }

  lemma PastSwitch(command: seq<string>, n: nat, option: string)
    requires n < |command| && Passed(command, n, option) && Differs(command[n], option)
    ensures Passed(command, n + 1, option)
  {}

  lemma PastValue(command: seq<string>, n: nat, option: string)
    requires n + 1 < |command| && Passed(command, n, option)
    requires Differs(command[n], option) && IsPlain(command[n + 1])
    ensures Passed(command, n + 2, option)
  {}

  lemma FrontPassed(front: seq<string>, command: seq<string>, option: string)
    requires |front| <= |command| && command[..|front|] == front && Passed(front, |front|, option)
    ensures Passed(command, |front|, option)
  {
    forall m | 0 <= m < |front| ensures command[m] == front[m] {
      assert command[m] == command[..|front|][m];
    }
  }

  // ---- A dump, token by token --------------------------------------------------------------------

  /** Where the options of a dump stand, counted from the end of its front. */
  predicate DumpLaidOut(c: WorkerConfig, p: seq<string>) {
    var n := |DumpFront(c)|;
    && |p| >= n + 11 && p[..n] == DumpFront(c)
    && p[n] == "--no-default-config" && p[n + 1] == "-t" && p[n + 2] == ToString(c.pid)
    && p[n + 3] == "--images-dir" && p[n + 4] == c.checkpointDir + "/images"
    && p[n + 5] == "--work-dir" && p[n + 6] == c.checkpointDir + "/work"
    && p[n + 7] == "--log-file" && p[n + 8] == c.checkpointDir + "/logs/dump.log"
    && p[n + 9] == "--leave-running" && p[n + 10] == "--shell-job"
  }

  lemma DumpLayout(c: WorkerConfig, rest: seq<string>)
    ensures DumpLaidOut(c, DumpPrefix(c) + rest)
  {}

  predicate DumpPathsAbsolute(c: WorkerConfig) {
    IsAbsolute(c.criuBin) && (c.namespaceDump ==> IsAbsolute(c.criuNsBin)) && IsAbsolute(c.checkpointDir)
  }

  lemma DumpFrontRead(c: WorkerConfig, option: string)
    requires DumpPathsAbsolute(c) && |option| != 13
    ensures Passed(DumpFront(c), |DumpFront(c)|, option)
  {
    WordsArePlain();
    assert |"--criu-binary"| == 13;
  }

  lemma DumpStart(c: WorkerConfig, command: seq<string>, option: string)
    requires DumpPathsAbsolute(c) && DumpLaidOut(c, command) && |option| != 13
    requires Differs("--no-default-config", option)
    ensures Passed(command, |DumpFront(c)| + 1, option)
  {
    DumpFrontRead(c, option);
    FrontPassed(DumpFront(c), command, option);
    PastSwitch(command, |DumpFront(c)|, option);
  }

  lemma DumpPid(c: WorkerConfig, command: seq<string>)
    requires DumpPathsAbsolute(c) && DumpLaidOut(c, command)
    ensures ValueOf(command, "-t") == Some(ToString(c.pid))
  {
    OptionsDiffer();
    DumpStart(c, command, "-t");
    ValuePast(command, "-t", |DumpFront(c)| + 1);
  }

  lemma DumpPastPid(c: WorkerConfig, command: seq<string>, option: string)
    requires DumpPathsAbsolute(c) && DumpLaidOut(c, command) && |option| != 13
    requires Differs("--no-default-config", option) && Differs("-t", option)
    ensures Passed(command, |DumpFront(c)| + 3, option)
  {
    NumberIsPlain(c.pid);
    DumpStart(c, command, option);
    PastValue(command, |DumpFront(c)| + 1, option);
  }

  lemma DumpImages(c: WorkerConfig, command: seq<string>)
    requires DumpPathsAbsolute(c) && DumpLaidOut(c, command)
    ensures ValueOf(command, "--images-dir") == Some(c.checkpointDir + "/images")
  {
    OptionsDiffer();
    DumpPastPid(c, command, "--images-dir");
    ValuePast(command, "--images-dir", |DumpFront(c)| + 3);
  }

  lemma DumpPastImages(c: WorkerConfig, command: seq<string>, option: string)
    requires DumpPathsAbsolute(c) && DumpLaidOut(c, command) && |option| != 13
    requires Differs("--no-default-config", option) && Differs("-t", option) && Differs("--images-dir", option)
    ensures Passed(command, |DumpFront(c)| + 5, option)
  {
    AbsoluteIsPlain(c.checkpointDir, "/images");
    DumpPastPid(c, command, option);
    PastValue(command, |DumpFront(c)| + 3, option);
  }

  lemma DumpWork(c: WorkerConfig, command: seq<string>)
    requires DumpPathsAbsolute(c) && DumpLaidOut(c, command)
    ensures ValueOf(command, "--work-dir") == Some(c.checkpointDir + "/work")
  {
    OptionsDiffer();
    DumpPastImages(c, command, "--work-dir");
    ValuePast(command, "--work-dir", |DumpFront(c)| + 5);
  }

  lemma DumpLog(c: WorkerConfig, command: seq<string>)
    requires DumpPathsAbsolute(c) && DumpLaidOut(c, command)
    ensures ValueOf(command, "--log-file") == Some(c.checkpointDir + "/logs/dump.log")
  {
    OptionsDiffer();
    AbsoluteIsPlain(c.checkpointDir, "/work");
    DumpPastImages(c, command, "--log-file");
    PastValue(command, |DumpFront(c)| + 5, "--log-file");
    ValuePast(command, "--log-file", |DumpFront(c)| + 7);
  }

  lemma DumpWrapped(c: WorkerConfig, command: seq<string>)
    requires c.namespaceDump && IsAbsolute(c.criuNsBin) && DumpLaidOut(c, command)
    ensures ValueOf(command, "--criu-binary") == Some(c.criuBin)
  {
    var front := DumpFront(c);
    WrappedFront(c);
    assert command[0] == front[0] && command[1] == front[1] && command[2] == front[2] && command[3] == front[3];
    ValuePast(command, "--criu-binary", 2);
  }

  lemma WrappedFront(c: WorkerConfig)
    requires c.namespaceDump && IsAbsolute(c.criuNsBin)
    ensures var front := DumpFront(c);
            && |front| == 4 && IsPlain(front[0]) && IsPlain(front[1])
            && front[2] == "--criu-binary" && front[3] == c.criuBin && IsOptionName("--criu-binary")
  {
    WordsArePlain();
  }

  lemma DumpFlags(c: WorkerConfig, command: seq<string>)
    requires DumpLaidOut(c, command)
    ensures |command| >= 2 && command[1] == "dump"
    ensures command[0] == if c.namespaceDump then c.criuNsBin else c.criuBin
    ensures "--no-default-config" in command && "--leave-running" in command && "--shell-job" in command
  {
    assert command[0] == DumpFront(c)[0] && command[1] == DumpFront(c)[1];
  }

  lemma DumpReads(c: WorkerConfig)
    requires Runnable(c)
    ensures DumpRead(c, DumpCommand(c))
  {
    ConcatAssociative(DumpPrefix(c), Defaults(c.extraArgs), c.extraArgs);
    DumpLayout(c, Defaults(c.extraArgs) + c.extraArgs);
    DumpLaidOutReads(c, DumpCommand(c));
  }

  lemma DumpLaidOutReads(c: WorkerConfig, command: seq<string>)
    requires DumpPathsAbsolute(c) && DumpLaidOut(c, command)
    ensures DumpRead(c, command)
  {
    DumpFlags(c, command);
    DumpPid(c, command);
    DumpImages(c, command);
    DumpWork(c, command);
    DumpLog(c, command);
    if c.namespaceDump {
      DumpWrapped(c, command);
    }
  }

  // ---- A restore, token by token -------------------------------------------------------------------

  /** Where the options of a restore stand, counted from the end of its front. */
  predicate RestoreLaidOut(c: WorkerConfig, p: seq<string>) {
    var n := |RestoreFront(c)|;
    && |p| >= n + 11 && p[..n] == RestoreFront(c)
    && p[n] == "--no-default-config"
    && p[n + 1] == "--images-dir" && p[n + 2] == c.checkpointDir + "/images"
    && p[n + 3] == "--work-dir" && p[n + 4] == c.checkpointDir + "/restore-work"
    && p[n + 5] == "--log-file" && p[n + 6] == c.checkpointDir + "/logs/restore.log"
    && p[n + 7] == "--pidfile" && p[n + 8] == c.checkpointDir + "/restore.pid"
    && p[n + 9] == "--shell-job" && p[n + 10] == "-d"
  }

  lemma RestoreLayout(c: WorkerConfig, rest: seq<string>)
    ensures RestoreLaidOut(c, RestorePrefix(c) + rest)
  {}

  predicate RestorePathsAbsolute(c: WorkerConfig) {
    IsAbsolute(c.criuBin) && IsAbsolute(c.checkpointDir)
  }

  lemma RestoreStart(c: WorkerConfig, command: seq<string>, option: string)
    requires RestorePathsAbsolute(c) && RestoreLaidOut(c, command) && Differs("--no-default-config", option)
    ensures Passed(command, |RestoreFront(c)| + 1, option)
  {
    WordsArePlain();
    FrontPassed(RestoreFront(c), command, option);
    PastSwitch(command, |RestoreFront(c)|, option);
  }

  lemma RestoreImages(c: WorkerConfig, command: seq<string>)
    requires RestorePathsAbsolute(c) && RestoreLaidOut(c, command)
    ensures ValueOf(command, "--images-dir") == Some(c.checkpointDir + "/images")
  {
    OptionsDiffer();
    RestoreStart(c, command, "--images-dir");
    ValuePast(command, "--images-dir", |RestoreFront(c)| + 1);
  }

  lemma RestorePastImages(c: WorkerConfig, command: seq<string>, option: string)
    requires RestorePathsAbsolute(c) && RestoreLaidOut(c, command)
    requires Differs("--no-default-config", option) && Differs("--images-dir", option)
    ensures Passed(command, |RestoreFront(c)| + 3, option)
  {
    AbsoluteIsPlain(c.checkpointDir, "/images");
    RestoreStart(c, command, option);
    PastValue(command, |RestoreFront(c)| + 1, option);
  }

  lemma RestoreWork(c: WorkerConfig, command: seq<string>)
    requires RestorePathsAbsolute(c) && RestoreLaidOut(c, command)
    ensures ValueOf(command, "--work-dir") == Some(c.checkpointDir + "/restore-work")
  {
    OptionsDiffer();
    RestorePastImages(c, command, "--work-dir");
    ValuePast(command, "--work-dir", |RestoreFront(c)| + 3);
  }

  lemma RestorePastWork(c: WorkerConfig, command: seq<string>, option: string)
    requires RestorePathsAbsolute(c) && RestoreLaidOut(c, command) && Differs("--work-dir", option)
    requires Differs("--no-default-config", option) && Differs("--images-dir", option)
    ensures Passed(command, |RestoreFront(c)| + 5, option)
  {
    AbsoluteIsPlain(c.checkpointDir, "/restore-work");
    RestorePastImages(c, command, option);
    PastValue(command, |RestoreFront(c)| + 3, option);
  }

  lemma RestoreLog(c: WorkerConfig, command: seq<string>)
    requires RestorePathsAbsolute(c) && RestoreLaidOut(c, command)
    ensures ValueOf(command, "--log-file") == Some(c.checkpointDir + "/logs/restore.log")
  {
    OptionsDiffer();
    RestorePastWork(c, command, "--log-file");
    ValuePast(command, "--log-file", |RestoreFront(c)| + 5);
  }

  lemma RestorePidfile(c: WorkerConfig, command: seq<string>)
    requires RestorePathsAbsolute(c) && RestoreLaidOut(c, command)
    ensures ValueOf(command, "--pidfile") == Some(c.checkpointDir + "/restore.pid")
  {
    OptionsDiffer();
    AbsoluteIsPlain(c.checkpointDir, "/logs/restore.log");
    RestorePastWork(c, command, "--pidfile");
    PastValue(command, |RestoreFront(c)| + 5, "--pidfile");
    ValuePast(command, "--pidfile", |RestoreFront(c)| + 7);
  }

  lemma RestoreReads(c: WorkerConfig)
    requires Runnable(c)
    ensures RestoreRead(c, RestoreCommand(c))
  {
    ConcatAssociative(RestorePrefix(c), Defaults(c.extraArgs), c.extraArgs);
    RestoreLayout(c, Defaults(c.extraArgs) + c.extraArgs);
    RestoreLaidOutReads(c, RestoreCommand(c));
  }

  lemma RestoreLaidOutReads(c: WorkerConfig, command: seq<string>)
    requires RestorePathsAbsolute(c) && RestoreLaidOut(c, command)
    ensures RestoreRead(c, command)
  {
    RestoreImages(c, command);
    RestoreWork(c, command);
    RestoreLog(c, command);
    RestorePidfile(c, command);
    if !c.namespaceRestore {
      assert command[0] == RestoreFront(c)[0] && command[1] == RestoreFront(c)[1];
    }
  }

  // ---- Which defaulted options CRIU gets ---------------------------------------------------------

  /** CRIU reads `token`, alone or with `=value`, as an option of `args`. */
  predicate Gives(args: seq<string>, token: string) {
    HasArg(Heads(args), token)
  }

  lemma GivesStep(args: seq<string>, token: string)
    requires args != [] && Accepts(args)
    ensures var n := if IsFlag(args[0]) then 1 else 2;
            Gives(args, token) <==> IsOption(args[0], token) || Gives(args[n..], token)
  {
    var n := if IsFlag(args[0]) then 1 else 2;
    HasArgStep(args[0], Heads(args[n..]), token);
  }

  lemma HasArgStep(head: string, tail: seq<string>, token: string)
    ensures HasArg([head] + tail, token) <==> IsOption(head, token) || HasArg(tail, token)
  {
    var all := [head] + tail;
    if HasArg(tail, token) {
      var i :| 0 <= i < |tail| && IsOption(tail[i], token);
      assert IsOption(all[i + 1], token);
    }
    if IsOption(head, token) {
      assert IsOption(all[0], token);
    }
  }

  /** Defaults come first and are flags, so the request's own options are read as before. */
  lemma DefaultHeads(extra: seq<string>)
    ensures Heads(Defaults(extra) + extra) == Defaults(extra) + Heads(extra)
  {
    var limit := if HasArg(extra, "--ghost-limit") then [] else ["--ghost-limit=64M"];
    var remap := if HasArg(extra, "--link-remap") then [] else ["--link-remap"];
    DefaultsAreFlags();
    FlagHead(remap, extra);
    FlagHead(limit, remap + extra);
    assert limit + (remap + extra) == Defaults(extra) + extra;
  }

  lemma DefaultsAreFlags()
    ensures IsFlag("--ghost-limit=64M") && IsFlag("--link-remap")
  {
    assert "--ghost-limit=64M"[..|"--ghost-limit="|] == "--ghost-limit=";
  }

  lemma FlagHead(front: seq<string>, rest: seq<string>)
    requires |front| <= 1 && forall i :: 0 <= i < |front| ==> IsFlag(front[i])
    ensures Heads(front + rest) == front + Heads(rest)
  {
    if front == [] {
      assert front + rest == rest && front + Heads(rest) == Heads(rest);
    } else {
      assert (front + rest)[1..] == rest && front == [front[0]];
    }
  }

  /** A value a pair admits looks like no defaulted option, except behind `--ghost-limit`. */
  lemma TtyAndFdValues(token: string, value: string)
    requires IsPair(token, value) && token != "--ghost-limit"
    ensures !IsOption(value, "--ghost-limit") && !IsOption(value, "--link-remap")
  {
    assert value[0] == 't' || value[0] == 'f';
  }

  lemma {:induction false} GhostLimitRead(extra: seq<string>)
    requires Accepts(extra) && HasArg(extra, "--ghost-limit")
    ensures Gives(extra, "--ghost-limit")
  {
    GivesStep(extra, "--ghost-limit");
    HasArgStep(extra[0], extra[1..], "--ghost-limit");
    assert extra == [extra[0]] + extra[1..];
    if !IsOption(extra[0], "--ghost-limit") {
      if IsFlag(extra[0]) {
        GhostLimitRead(extra[1..]);
      } else {
        PastPair(extra);
        GhostLimitRead(extra[2..]);
      }
    }
  }

  /** Behind a pair that is no ghost limit, a token that looks like one is still to come. */
  lemma PastPair(extra: seq<string>)
    requires |extra| >= 2 && IsPair(extra[0], extra[1]) && !IsOption(extra[0], "--ghost-limit")
    requires HasArg(extra[1..], "--ghost-limit")
    ensures HasArg(extra[2..], "--ghost-limit")
  {
    TtyAndFdValues(extra[0], extra[1]);
    HasArgStep(extra[1], extra[2..], "--ghost-limit");
    assert extra[1..] == [extra[1]] + extra[2..];
  }

  /** CRIU always gets a ghost limit, from the request or by default. */
  lemma GhostLimitAlwaysGiven(extra: seq<string>)
    requires Accepts(extra)
    ensures Gives(Defaults(extra) + extra, "--ghost-limit")
  {
    DefaultHeads(extra);
    var front, tail := Defaults(extra), Heads(extra);
    if HasArg(extra, "--ghost-limit") {
      GhostLimitRead(extra);
      var i :| 0 <= i < |tail| && IsOption(tail[i], "--ghost-limit");
      assert IsOption((front + tail)[|front| + i], "--ghost-limit");
    } else {
      DefaultLimitIsOption();
      assert IsOption((front + tail)[0], "--ghost-limit");
    }
  }

  lemma DefaultLimitIsOption()
    ensures IsOption("--ghost-limit=64M", "--ghost-limit")
  {
    assert "--ghost-limit=64M"[..|"--ghost-limit" + "="|] == "--ghost-limit" + "=";
  }

  /**
   Link remapping is on if and only if the request gives it as an option or nowhere names it.
   A request that names it only as the value of another option switches it off.
   */
  lemma LinkRemapGivenExactly(extra: seq<string>)
    requires Accepts(extra)
    ensures Gives(Defaults(extra) + extra, "--link-remap") <==>
            Gives(extra, "--link-remap") || !HasArg(extra, "--link-remap")
  {
    DefaultHeads(extra);
    var front, tail := Defaults(extra), Heads(extra);
    if Gives(extra, "--link-remap") {
      var i :| 0 <= i < |tail| && IsOption(tail[i], "--link-remap");
      assert IsOption((front + tail)[|front| + i], "--link-remap");
    } else if !HasArg(extra, "--link-remap") {
      assert IsOption((front + tail)[|front| - 1], "--link-remap");
    } else {
      DefaultLimitIsNoRemap();
      assert forall i :: 0 <= i < |front| ==> !IsOption(front[i], "--link-remap");
    }
  }

  lemma DefaultLimitIsNoRemap()
    ensures !IsOption("--ghost-limit=64M", "--link-remap")
  {
    assert "--ghost-limit=64M"[2] != "--link-remap"[2];
  }

  /** An accepted request under which CRIU runs without link remapping. */
  lemma LinkRemapLost(extra: seq<string>)
    requires extra == ["--ghost-limit", "--link-remap"]
    ensures Accepts(extra) && Defaults(extra) == []
    ensures !Gives(Defaults(extra) + extra, "--link-remap")
  {
    PairIsNoFlag(extra[0], extra[1]);
    assert IsOption(extra[0], "--ghost-limit") && IsOption(extra[1], "--link-remap");
    LinkRemapGivenExactly(extra);
    GivesStep(extra, "--link-remap");
    assert extra[0][2] != "--link-remap"[2];
    assert extra[2..] == [];
  }

  // ---- From the store to CRIU -------------------------------------------------------------------

  /** The configuration the daemon passes for a checkpoint of its own store. */
  function Launch(root: Path, k: CheckpointKey, operation: string, criuBin: string, criuNsBin: string,
                  pid: int, namespaceMode: bool, ttyFd: int, extra: seq<string>): WorkerConfig
  {
    WorkerConfig(operation, Render(root), Render(JobDir(root, k.Job())), Render(CheckpointDir(root, k)),
                 criuBin, criuNsBin, if operation == "dump" then pid else 0,
                 operation == "dump" && namespaceMode, operation != "dump" && namespaceMode, ttyFd, extra)
  }

  lemma LayoutIsTokens(root: Path, k: CheckpointKey)
    requires AllTokens(root, '/') && SafeId(k.jobId) && SafeId(k.checkpointId)
    ensures AllTokens(JobDir(root, k.Job()), '/') && AllTokens(CheckpointDir(root, k), '/')
    ensures JobDir(root, k.Job()) == root + [ToString(k.uid), "jobs", k.jobId]
  {
    SafeIdIsComponent(k.jobId);
    SafeIdIsComponent(k.checkpointId);
    LayoutShape(root, k);
    FixedComponents();
    assert IsToken(ToString(k.uid), '/');
  }

  lemma FixedComponents()
    ensures IsToken("jobs", '/') && IsToken("checkpoints", '/') && IsToken("..", '/')
  {}

  /** The worker accepts every path the store builds. */
  lemma StorePathsAccepted(root: Path, k: CheckpointKey)
    requires root != [] && AllTokens(root, '/') && SafeId(k.jobId) && SafeId(k.checkpointId)
    ensures var state, job, checkpoint := Render(root), Render(JobDir(root, k.Job())), Render(CheckpointDir(root, k));
            && IsAbsolute(state) && IsAbsolute(job) && IsAbsolute(checkpoint)
            && Beneath(ParsePath(state), ParsePath(job)) && Beneath(ParsePath(job), ParsePath(checkpoint))
  {
    LayoutIsTokens(root, k);
    ParseRender(root);
    ParseRender(JobDir(root, k.Job()));
    ParseRender(CheckpointDir(root, k));
    LayoutResolves(root, k);
  }

  lemma LayoutResolves(root: Path, k: CheckpointKey)
    requires SafeId(k.jobId) && SafeId(k.checkpointId)
    ensures Resolve(JobDir(root, k.Job())) == Resolve(root) + [ToString(k.uid), "jobs", k.jobId]
    ensures Resolve(CheckpointDir(root, k))
         == Resolve(root) + [ToString(k.uid), "jobs", k.jobId, "checkpoints", k.checkpointId]
  {
    var job := [ToString(k.uid), "jobs", k.jobId];
    var checkpoint := [ToString(k.uid), "jobs", k.jobId, "checkpoints", k.checkpointId];
    LayoutShape(root, k);
    LayoutNames(k);
    ResolveBelow(root, job);
    ResolveBelow(root, checkpoint);
    assert JobDir(root, k.Job()) == root + job && CheckpointDir(root, k) == root + checkpoint;
  }

  lemma LayoutNames(k: CheckpointKey)
    requires SafeId(k.jobId) && SafeId(k.checkpointId)
    ensures IsName(ToString(k.uid)) && IsName("jobs") && IsName("checkpoints")
    ensures IsName(k.jobId) && IsName(k.checkpointId)
  {
    SafeIdIsComponent(k.jobId);
    SafeIdIsComponent(k.checkpointId);
    assert IsDigit(Digits(k.uid)[0]);
  }

  /** A job directory that climbs out of the state directory is refused. */
  lemma ClimbingRefused(c: WorkerConfig, state: Path, name: string)
    requires AllTokens(state, '/') && IsToken(name, '/') && IsName(name)
    requires Resolve(state) != [] && name != Resolve(state)[|Resolve(state)| - 1]
    requires c.stateDir == Render(state) && c.jobDir == Render(state + ["..", name])
    ensures !Runnable(c)
  {
    FixedComponents();
    ParseRender(state);
    ParseRender(state + ["..", name]);
    ClimbsOut(state, name);
  }

  lemma ClimbsOut(state: Path, name: string)
    requires IsName(name) && Resolve(state) != [] && name != Resolve(state)[|Resolve(state)| - 1]
    ensures !Beneath(Resolve(state), Resolve(state + ["..", name]))
  {
    ResolveUp(state, name);
    var n := |Resolve(state)| - 1;
    assert Resolve(state + ["..", name])[n] == name;
  }

  /**
   End to end: what the daemon flattens for a checkpoint of its store, the worker parses back
   field by field and accepts, with the request's extra arguments in order.
   */
  lemma Pipeline(root: Path, k: CheckpointKey, operation: string, criuBin: string, criuNsBin: string,
                 pid: int, namespaceMode: bool, ttyFd: int, extra: seq<string>)
    requires root != [] && AllTokens(root, '/') && SafeId(k.jobId) && SafeId(k.checkpointId)
    requires operation == "dump" || operation == "restore"
    requires IsAbsolute(criuBin) && (namespaceMode ==> IsAbsolute(criuNsBin))
    requires 1 < pid < TWO_31 && -1 <= ttyFd < TWO_31
    ensures var c := Launch(root, k, operation, criuBin, criuNsBin, pid, namespaceMode, ttyFd, extra);
            && Parse(WorkerArgs(c), DEFAULT_CONFIG) == Ok(c)
            && Runnable(c) && c.extraArgs == extra
  {
    var c := Launch(root, k, operation, criuBin, criuNsBin, pid, namespaceMode, ttyFd, extra);
    ParseWorkerArgs(c);
    StorePathsAccepted(root, k);
  }
}
