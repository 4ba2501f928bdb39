/** When a launched job gets its record: the save comes after the process exists. */
module BrokerLaunch {
  import opened Broker
  import opened Paths
  import opened Stores
  import CommandLine
  import CriuCommand
  import KeyValueText

  lemma {:induction false} EscapeLines(t: string)
    ensures '\n' in CommandLine.Escape(t) <==> '\n' in t
  {
    if t != "" {
      EscapeLines(t[1..]);
      assert t == [t[0]] + t[1..];
    }
  }

  lemma QuoteLines(t: string)
    ensures '\n' in CommandLine.Quote(t) <==> '\n' in t
  {
    EscapeLines(t);
  }

  predicate AllLineFree(argv: seq<string>) {
    forall i :: 0 <= i < |argv| ==> KeyValueText.LineFree(argv[i])
  }

  lemma {:induction false} SpacedLines(argv: seq<string>)
    ensures KeyValueText.LineFree(CommandLine.Spaced(argv)) <==> AllLineFree(argv)
  {
    if argv != [] {
      QuoteLines(argv[0]);
      SpacedLines(argv[1..]);
      AllSplit(argv);
    }
  }

  lemma AllSplit(argv: seq<string>)
    requires argv != []
    ensures AllLineFree(argv) <==> KeyValueText.LineFree(argv[0]) && AllLineFree(argv[1..])
  {
    assert argv == [argv[0]] + argv[1..];
  }

  /** The stored command line holds a newline exactly when some argument does. */
  lemma JoinLines(argv: seq<string>)
    ensures KeyValueText.LineFree(CommandLine.Join(argv)) <==> AllLineFree(argv)
  {
    if argv != [] {
      QuoteLines(argv[0]);
      SpacedLines(argv[1..]);
      AllSplit(argv);
    }
  }

  /** The request passes every check made before the process is started, and the start succeeds. */
  predicate Launches(i: Input) {
    var args := i.request.GetAll("arg");
    && args != [] && CriuCommand.IsAbsolute(args[0]) && CriuCommand.IsAbsolute(i.request.Get("cwd"))
    && i.env.launched.Some? && KeyValueText.LineFree(i.env.launched.value.1)
  }

  /** A launched process is recorded if and only if neither its arguments nor its directory hold a newline. */
  lemma RecordedExactly(s: State, i: Input)
    requires Launches(i) && SafeId(i.env.freshJob) && JobKey(i.peer.uid, i.env.freshJob) !in s.jobs
    ensures JobKey(i.peer.uid, i.env.freshJob) in RunRequest(s, i).store.jobs <==>
              AllLineFree(i.request.GetAll("arg")) && KeyValueText.LineFree(i.request.Get("cwd"))
    ensures RunRequest(s, i).reply.Accepted? <==> JobKey(i.peer.uid, i.env.freshJob) in RunRequest(s, i).store.jobs
  {
    var args := i.request.GetAll("arg");
    JoinLines(args);
    SafeIdIsComponent(i.env.freshJob);
    RunningLineFree();
    assert AllLineFree(args) ==> KeyValueText.LineFree(args[0]);
  }

  lemma RunningLineFree()
    ensures KeyValueText.LineFree("running")
  {}

  /** So `/bin/echo` with a newline as argument runs without a record. */
  lemma UnrecordedLaunch(s: State, i: Input)
    requires i.request.GetAll("arg") == ["/bin/echo", "\n"] && i.request.Get("cwd") == "/"
    requires Launches(i) && SafeId(i.env.freshJob) && JobKey(i.peer.uid, i.env.freshJob) !in s.jobs
    ensures RunRequest(s, i).store == s && RunRequest(s, i).reply.Refused?
  {
    RecordedExactly(s, i);
    assert !KeyValueText.LineFree(i.request.GetAll("arg")[1]);
  }
}
