/**
 The daemon flattens a worker's configuration into an argv, the worker parses it again in
 its own process, checks it and builds the CRIU command.
 */
module WorkerCommand {
  import opened Decimal
  import opened Outcomes

  datatype WorkerConfig = WorkerConfig(
    operation: string,
    stateDir: string,
    jobDir: string,
    checkpointDir: string,
    criuBin: string,
    criuNsBin: string,
    pid: int,
    namespaceDump: bool,
    namespaceRestore: bool,
    ttyFd: int,
    extraArgs: seq<string>)

  const DEFAULT_CONFIG := WorkerConfig("", "", "", "", "", "", 0, false, false, -1, [])

  // ---- Flags ---------------------------------------------------------------------------

  datatype Flag =
    | OperationFlag | StateDirFlag | JobDirFlag | CheckpointDirFlag | CriuBinFlag | CriuNsBinFlag
    | PidFlag | NamespaceDumpFlag | NamespaceRestoreFlag | TtyFdFlag | ExtraArgFlag

  function Name(f: Flag): string {
    match f
    case OperationFlag => "--operation"
    case StateDirFlag => "--state-dir"
    case JobDirFlag => "--job-dir"
    case CheckpointDirFlag => "--checkpoint-dir"
    case CriuBinFlag => "--criu-bin"
    case CriuNsBinFlag => "--criu-ns-bin"
    case PidFlag => "--pid"
    case NamespaceDumpFlag => "--namespace-dump"
    case NamespaceRestoreFlag => "--namespace-restore"
    case TtyFdFlag => "--tty-fd"
    case ExtraArgFlag => "--extra-arg"
  }

  function FlagOf(arg: string): Option<Flag> {
    if arg == "--operation" then Some(OperationFlag)
    else if arg == "--state-dir" then Some(StateDirFlag)
    else if arg == "--job-dir" then Some(JobDirFlag)
    else if arg == "--checkpoint-dir" then Some(CheckpointDirFlag)
    else if arg == "--criu-bin" then Some(CriuBinFlag)
    else if arg == "--criu-ns-bin" then Some(CriuNsBinFlag)
    else if arg == "--pid" then Some(PidFlag)
    else if arg == "--namespace-dump" then Some(NamespaceDumpFlag)
    else if arg == "--namespace-restore" then Some(NamespaceRestoreFlag)
    else if arg == "--tty-fd" then Some(TtyFdFlag)
    else if arg == "--extra-arg" then Some(ExtraArgFlag)
    else None
  }

  lemma FlagOfName(f: Flag)
    ensures FlagOf(Name(f)) == Some(f)
  {}

  // ---- The daemon's side -------------------------------------------------------------------

  function ExtraTokens(extra: seq<string>): seq<string> {
    if extra == [] then [] else [Name(ExtraArgFlag), extra[0]] + ExtraTokens(extra[1..])
  }

  function ModeTokens(c: WorkerConfig): seq<string> {
    if c.operation == "dump" then
      [Name(PidFlag), ToString(c.pid)] + if c.namespaceDump then [Name(NamespaceDumpFlag)] else []
    else if c.namespaceRestore then [Name(NamespaceRestoreFlag)]
    else []
  }

  function TtyTokens(c: WorkerConfig): seq<string> {
    if c.ttyFd >= 0 then [Name(TtyFdFlag), ToString(c.ttyFd)] else []
  }

  function NamedTokens(c: WorkerConfig): seq<string> {
    [Name(OperationFlag), c.operation, Name(StateDirFlag), c.stateDir, Name(JobDirFlag), c.jobDir,
     Name(CheckpointDirFlag), c.checkpointDir, Name(CriuBinFlag), c.criuBin, Name(CriuNsBinFlag), c.criuNsBin]
  }

  /** The worker's argv after its own name. */
  function WorkerArgs(c: WorkerConfig): seq<string> {
    NamedTokens(c) + (ModeTokens(c) + (TtyTokens(c) + ExtraTokens(c.extraArgs)))
  }

  method BuildWorkerCommand(workerPath: string, c: WorkerConfig) returns (command: seq<string>)
    ensures command == [workerPath] + WorkerArgs(c)
  {
    var named := [
      "--operation", c.operation, "--state-dir", c.stateDir, "--job-dir", c.jobDir,
      "--checkpoint-dir", c.checkpointDir, "--criu-bin", c.criuBin, "--criu-ns-bin", c.criuNsBin];
    command := [workerPath] + named;
    var mode := AppendMode(c);
    command := command + mode;
    var tty := if c.ttyFd >= 0 then ["--tty-fd", ToString(c.ttyFd)] else [];
    command := command + tty;
    var extra := AppendExtra(c.extraArgs);
    command := command + extra;
    Reassociate([workerPath], named, mode, tty, extra);
  }

  lemma Reassociate(a: seq<string>, b: seq<string>, c: seq<string>, d: seq<string>, e: seq<string>)
    ensures a + b + c + d + e == a + (b + (c + (d + e)))
  {}

  method AppendMode(c: WorkerConfig) returns (tokens: seq<string>)
    ensures tokens == ModeTokens(c)
  {
    tokens := [];
    if c.operation == "dump" {
      tokens := ["--pid", ToString(c.pid)];
      if c.namespaceDump {
        tokens := tokens + ["--namespace-dump"];
      }
    } else if c.namespaceRestore {
      tokens := ["--namespace-restore"];
    }
  }

  method AppendExtra(extra: seq<string>) returns (tokens: seq<string>)
    ensures tokens == ExtraTokens(extra)
  {
    tokens := [];
    for i := 0 to |extra|
      invariant tokens + ExtraTokens(extra[i..]) == ExtraTokens(extra)
    {
      assert extra[i..][1..] == extra[i + 1..];
      tokens := tokens + ["--extra-arg", extra[i]];
    }
  }

  // ---- The worker's side ----------------------------------------------------------------------

  /** The configuration with one valued flag set. */
  function Assign(c: WorkerConfig, f: Flag, value: string): Result<WorkerConfig> {
    match f
    case OperationFlag => Ok(c.(operation := value))
    case StateDirFlag => Ok(c.(stateDir := value))
    case JobDirFlag => Ok(c.(jobDir := value))
    case CheckpointDirFlag => Ok(c.(checkpointDir := value))
    case CriuBinFlag => Ok(c.(criuBin := value))
    case CriuNsBinFlag => Ok(c.(criuNsBin := value))
    case PidFlag =>
      var pid :- Stol(value);
      Ok(c.(pid := ToInt32(pid)))
    case TtyFdFlag =>
      var fd :- Stol(value);
      Ok(c.(ttyFd := ToInt32(fd)))
    case ExtraArgFlag => Ok(c.(extraArgs := c.extraArgs + [value]))
    case NamespaceDumpFlag => Ok(c.(namespaceDump := true))
    case NamespaceRestoreFlag => Ok(c.(namespaceRestore := true))
  }

  predicate TakesValue(f: Flag) {
    f != NamespaceDumpFlag && f != NamespaceRestoreFlag
  }

  function Parse(args: seq<string>, c: WorkerConfig): Result<WorkerConfig> {
    if args == [] then Ok(c)
    else
      match FlagOf(args[0])
      case None => Err("unknown worker flag")
      case Some(f) =>
        if !TakesValue(f) then
          var next :- Assign(c, f, "");
          Parse(args[1..], next)
        else if |args| < 2 then Err("missing value")
        else
          var next :- Assign(c, f, args[1]);
          Parse(args[2..], next)
  }

  method ParseArgs(argv: seq<string>) returns (r: Result<WorkerConfig>)
    ensures argv != [] ==> r == Parse(argv[1..], DEFAULT_CONFIG)
    ensures argv == [] ==> r == Ok(DEFAULT_CONFIG)
  {
    var config := DEFAULT_CONFIG;
    var index := 1;
    while index < |argv|
      invariant 1 <= index && (argv == [] ==> index == 1 && config == DEFAULT_CONFIG)
      invariant argv != [] ==> index <= |argv| && Parse(argv[index..], config) == Parse(argv[1..], DEFAULT_CONFIG)
    {
      var flag := FlagOf(argv[index]);
      assert argv[index..][1..] == argv[index + 1..];
      if flag.None? {
        return Err("unknown worker flag");
      }
      var value := "";
      if TakesValue(flag.value) {
        if index + 1 >= |argv| {
          return Err("missing value");
        }
        assert argv[index..][2..] == argv[index + 2..];
        index := index + 1;
        value := argv[index];
      }
      var next := Assign(config, flag.value, value);
      if next.Err? {
        return Err(next.error);
      }
      config := next.value;
      index := index + 1;
    }
    r := Ok(config);
  }

  // ---- The worker recovers the configuration ------------------------------------------------------

  lemma ParseValue(f: Flag, value: string, rest: seq<string>, c: WorkerConfig, next: WorkerConfig)
    requires TakesValue(f) && Assign(c, f, value) == Ok(next)
    ensures Parse([Name(f), value] + rest, c) == Parse(rest, next)
  {
    FlagOfName(f);
    assert ([Name(f), value] + rest)[2..] == rest;
  }

  lemma ParseSwitch(f: Flag, rest: seq<string>, c: WorkerConfig, next: WorkerConfig)
    requires !TakesValue(f) && Assign(c, f, "") == Ok(next)
    ensures Parse([Name(f)] + rest, c) == Parse(rest, next)
  {
    FlagOfName(f);
    assert ([Name(f)] + rest)[1..] == rest;
  }

  lemma {:induction false} ParseExtra(extra: seq<string>, c: WorkerConfig)
    ensures Parse(ExtraTokens(extra), c) == Ok(c.(extraArgs := c.extraArgs + extra))
  {
    if extra == [] {
      assert c.extraArgs + extra == c.extraArgs;
    } else {
      var next := c.(extraArgs := c.extraArgs + [extra[0]]);
      ParseValue(ExtraArgFlag, extra[0], ExtraTokens(extra[1..]), c, next);
      ParseExtra(extra[1..], next);
      assert c.extraArgs + [extra[0]] + extra[1..] == c.extraArgs + extra;
    }
  }

  lemma ParseTty(c: WorkerConfig, rest: seq<string>, d: WorkerConfig)
    requires -1 <= c.ttyFd < TWO_31 && d.ttyFd == -1
    ensures Parse(TtyTokens(c) + rest, d) == Parse(rest, d.(ttyFd := c.ttyFd))
  {
    if c.ttyFd >= 0 {
      StolToString(c.ttyFd);
      ParseValue(TtyFdFlag, ToString(c.ttyFd), rest, d, d.(ttyFd := c.ttyFd));
    } else {
      assert TtyTokens(c) + rest == rest;
    }
  }

  /** What the daemon passes: a pid and dump mode for a dump, restore mode otherwise. */
  predicate Launchable(c: WorkerConfig) {
    && -1 <= c.ttyFd < TWO_31
    && if c.operation == "dump" then -TWO_31 <= c.pid < TWO_31 && !c.namespaceRestore
       else c.pid == 0 && !c.namespaceDump
  }

  lemma ParseDumpMode(c: WorkerConfig, switches: seq<string>, rest: seq<string>, d: WorkerConfig)
    requires -TWO_31 <= c.pid < TWO_31 && !d.namespaceDump
    requires switches == if c.namespaceDump then [Name(NamespaceDumpFlag)] else []
    ensures Parse([Name(PidFlag), ToString(c.pid)] + (switches + rest), d)
         == Parse(rest, d.(pid := c.pid, namespaceDump := c.namespaceDump))
  {
    StolToString(c.pid);
    var withPid := d.(pid := c.pid);
    ParseValue(PidFlag, ToString(c.pid), switches + rest, d, withPid);
    if c.namespaceDump {
      ParseSwitch(NamespaceDumpFlag, rest, withPid, withPid.(namespaceDump := true));
    } else {
      assert switches + rest == rest;
    }
  }

  lemma ParseMode(c: WorkerConfig, rest: seq<string>, d: WorkerConfig)
    requires Launchable(c) && d.pid == 0 && !d.namespaceDump && !d.namespaceRestore
    ensures Parse(ModeTokens(c) + rest, d)
         == Parse(rest, d.(pid := c.pid, namespaceDump := c.namespaceDump, namespaceRestore := c.namespaceRestore))
  {
    if c.operation == "dump" {
      var switches := if c.namespaceDump then [Name(NamespaceDumpFlag)] else [];
      assert ModeTokens(c) + rest == [Name(PidFlag), ToString(c.pid)] + (switches + rest);
      ParseDumpMode(c, switches, rest, d);
    } else if c.namespaceRestore {
      ParseSwitch(NamespaceRestoreFlag, rest, d, d.(namespaceRestore := true));
    } else {
      assert ModeTokens(c) + rest == rest;
    }
  }

  /** The worker recovers every field, whatever strings the extra arguments are. */
  lemma ParseWorkerArgs(c: WorkerConfig)
    requires Launchable(c)
    ensures Parse(WorkerArgs(c), DEFAULT_CONFIG) == Ok(c)
  {
    var tail := ModeTokens(c) + (TtyTokens(c) + ExtraTokens(c.extraArgs));
    var named := ParseNamed(c, tail);
    ParseMode(c, TtyTokens(c) + ExtraTokens(c.extraArgs), named);
    var moded := named.(pid := c.pid, namespaceDump := c.namespaceDump, namespaceRestore := c.namespaceRestore);
    ParseTty(c, ExtraTokens(c.extraArgs), moded);
    ParseExtra(c.extraArgs, moded.(ttyFd := c.ttyFd));
    assert [] + c.extraArgs == c.extraArgs;
  }

  lemma ParseNamed(c: WorkerConfig, tail: seq<string>) returns (named: WorkerConfig)
    ensures named == WorkerConfig(c.operation, c.stateDir, c.jobDir, c.checkpointDir, c.criuBin, c.criuNsBin,
                                  0, false, false, -1, [])
    ensures Parse(NamedTokens(c) + tail, DEFAULT_CONFIG) == Parse(tail, named)
  {
    var t5 := [Name(CriuNsBinFlag), c.criuNsBin] + tail;
    var t4 := [Name(CriuBinFlag), c.criuBin] + t5;
    var t3 := [Name(CheckpointDirFlag), c.checkpointDir] + t4;
    var t2 := [Name(JobDirFlag), c.jobDir] + t3;
    var t1 := [Name(StateDirFlag), c.stateDir] + t2;
    assert NamedTokens(c) + tail == [Name(OperationFlag), c.operation] + t1;
    var c1 := DEFAULT_CONFIG.(operation := c.operation);
    var c2 := c1.(stateDir := c.stateDir);
    var c3 := c2.(jobDir := c.jobDir);
    var c4 := c3.(checkpointDir := c.checkpointDir);
    var c5 := c4.(criuBin := c.criuBin);
    named := c5.(criuNsBin := c.criuNsBin);
    ParseValue(OperationFlag, c.operation, t1, DEFAULT_CONFIG, c1);
    ParseValue(StateDirFlag, c.stateDir, t2, c1, c2);
    ParseValue(JobDirFlag, c.jobDir, t3, c2, c3);
    ParseValue(CheckpointDirFlag, c.checkpointDir, t4, c3, c4);
    ParseValue(CriuBinFlag, c.criuBin, t5, c4, c5);
    ParseValue(CriuNsBinFlag, c.criuNsBin, tail, c5, named);
  }
}
