/**
 Supervising a child process: the daemon's timeout on the worker, and the worker's
 forwarding of termination to a restore. Time is in milliseconds; the answers the kernel
 will give, and how long each takes, are the child's script. The contracts hold for every script.
 */
module Supervision {
  import opened Outcomes

  const SIGHUP: int := 1
  const SIGINT: int := 2
  const SIGTERM: int := 15
  const SIGKILL: int := 9
  const POLL_MS: int := 50
  const GRACE_MS: int := 2000
  const RESTORE_GRACE_MS: int := 500

  datatype ExitStatus = Exited(code: int) | Signaled(number: int)

  /** What `waitpid` answers: still running, reaped, interrupted, no such child, another error. */
  datatype Wait = Running | Reaped(status: ExitStatus) | Interrupted | NoChild | WaitError

  /** The signals the worker installs its handler for, or 0 for none. */
  type Termination = n: int | n == 0 || n == SIGHUP || n == SIGINT || n == SIGTERM

  /** One answer, the time until it comes, and a termination signal caught meanwhile. */
  datatype Answer = Answer(wait: Wait, elapsed: nat, caught: Termination)

  /** A signal and when it was sent or caught. */
  datatype Sent = Sent(number: int, at: int)

  datatype Heard = Heard(number: Termination, at: int)

  class Child {
    var clock: int
    var script: seq<Answer>
    var signals: seq<Sent>
    var reaped: Option<ExitStatus>
    var gone: bool
    var failed: bool
    var caught: Termination
    ghost var heard: seq<Heard>
    ghost var answer: Option<Wait>

    /** `caught` is the signal heard last. */
    ghost predicate Listening()
      reads this
    {
      && (caught == 0 <==> heard == []) && (heard != [] ==> heard[|heard| - 1].number == caught)
      && forall i :: 0 <= i < |heard| ==> heard[i].number != 0 && heard[i].at <= clock
    }

    constructor (now: int, script: seq<Answer>)
      ensures clock == now && this.script == script && signals == [] && reaped == None
      ensures !gone && !failed && caught == 0 && heard == [] && Listening()
    {
      clock, this.script, signals, reaped, gone, failed, caught := now, script, [], None, false, false, 0;
      heard, answer := [], None;
    }

    /** `waitpid`; `None` when the script has no further answer. A blocking call never answers `Running`. */
    method WaitPid(blocking: bool) returns (r: Option<Wait>)
      modifies this`clock, this`script, this`reaped, this`gone, this`failed, this`caught, this`heard,
        this`answer
      ensures clock >= old(clock)
      ensures r.None? <==> old(script) == []
      ensures r.Some? ==> script == old(script)[1..]
      ensures r.None? ==> script == old(script) && heard == old(heard)
      ensures blocking ==> r != Some(Running)
      ensures answer == if r.Some? then r else old(answer)
      ensures reaped == if r.Some? && r.value.Reaped? then Some(r.value.status) else old(reaped)
      ensures gone <==> old(gone) || r == Some(NoChild)
      ensures failed <==> old(failed) || r == Some(WaitError)
      ensures caught == 0 ==> old(caught) == 0
      ensures || (heard == old(heard) && caught == old(caught))
              || (caught != 0 && heard == old(heard) + [Heard(caught, clock)])
      ensures old(Listening()) ==> Listening()
    {
      if script == [] {
        return None;
      }
      var answer := script[0];
      script := script[1..];
      clock := clock + answer.elapsed;
      if answer.caught != 0 {
        caught := answer.caught;
        heard := heard + [Heard(caught, clock)];
      }
      var wait := if blocking && answer.wait.Running? then Interrupted else answer.wait;
      if wait.Reaped? {
        reaped := Some(wait.status);
      }
      if wait.NoChild? {
        gone := true;
      }
      if wait.WaitError? {
        failed := true;
      }
      r, this.answer := Some(wait), Some(wait);
    }

    method Kill(number: int)
      modifies this`signals
      ensures signals == old(signals) + [Sent(number, clock)]
    {
      signals := signals + [Sent(number, clock)];
    }

    method Sleep(ms: nat)
      modifies this`clock
      ensures clock == old(clock) + ms
    {
      clock := clock + ms;
    }
  }

  datatype Verdict = Success | WorkerFailed | TimedOut | WaitFailed | Unfinished

  /** Signals in the daemon's order: SIGTERM at the deadline, SIGKILL no sooner than the grace period later. */
  ghost predicate Escalated(signals: seq<Sent>, deadline: int) {
    && 1 <= |signals| <= 2
    && signals[0].number == 15 && signals[0].at >= deadline
    && (|signals| == 2 ==> signals[1].number == 9 && signals[1].at >= signals[0].at + 2000)
  }

  /** The wait that was to reap the child after SIGKILL was interrupted; it is not tried again. */
  ghost predicate InterruptedAfterKill(child: Child)
    reads child
  {
    |child.signals| == 2 && child.answer == Some(Interrupted)
  }

  /**
   The daemon's wait. `polls` counts the answers "still running"; it is bounded by the
   timeout and the grace period whatever the script.
   */
  method WaitForWorkerSuccess(child: Child, timeout: nat) returns (v: Verdict, ghost polls: nat)
    requires child.signals == [] && child.reaped == None && !child.gone && !child.failed
    modifies child
    ensures v == Success <==> child.reaped == Some(Exited(0)) && child.signals == []
    ensures v == WorkerFailed <==> child.reaped.Some? && child.reaped != Some(Exited(0)) && child.signals == []
    ensures v == WaitFailed <==> child.failed || (child.gone && child.signals == []) || InterruptedAfterKill(child)
    ensures v == WaitFailed ==> child.reaped == None
    ensures v == TimedOut ==> Escalated(child.signals, old(child.clock) + timeout) && (child.reaped.Some? || child.gone)
    ensures child.signals == [] || Escalated(child.signals, old(child.clock) + timeout)
    ensures 50 * polls <= timeout + 2000 + 3 * 50
    ensures v == Unfinished ==> child.script == []
  {
    var deadline := child.clock + timeout;
    ghost var start := child.clock;
    polls := 0;
    while true
      invariant child.signals == [] && child.reaped == None && !child.gone && !child.failed
      invariant child.clock >= start + POLL_MS * polls
      invariant polls == 0 || POLL_MS * (polls - 1) < timeout
      decreases |child.script|
    {
      var waited := child.WaitPid(false);
      if waited.None? {
        return Unfinished, polls;
      }
      match waited.value
      case Interrupted =>
        continue;
      case NoChild =>
        return WaitFailed, polls;
      case WaitError =>
        return WaitFailed, polls;
      case Reaped(status) =>
        return if status == Exited(0) then Success else WorkerFailed, polls;
      case Running =>
        if child.clock >= deadline {
          child.Kill(SIGTERM);
          ghost var more: nat;
          v, more := AwaitTermination(child, deadline);
          return v, polls + 1 + more;
        }
        child.Sleep(50);
        polls := polls + 1;
    }
  }

  /** After SIGTERM: poll for the grace period, then SIGKILL and reap. */
  method AwaitTermination(child: Child, ghost deadline: int) returns (v: Verdict, ghost polls: nat)
    requires child.signals == [Sent(SIGTERM, child.clock)] && child.clock >= deadline
    requires child.reaped == None && !child.gone && !child.failed
    modifies child
    ensures v in {TimedOut, WaitFailed, Unfinished}
    ensures v == TimedOut <==> child.reaped.Some? || child.gone
    ensures v == WaitFailed <==> child.failed || InterruptedAfterKill(child)
    ensures Escalated(child.signals, deadline)
    ensures 50 * polls <= 2000 + 50
    ensures v == Unfinished ==> child.script == []
  {
    var killDeadline := child.clock + GRACE_MS;
    ghost var start := child.clock;
    polls := 0;
    while true
      invariant child.signals == [Sent(SIGTERM, start)] && child.reaped == None && !child.gone && !child.failed
      invariant child.clock >= start + POLL_MS * polls
      invariant polls == 0 || POLL_MS * (polls - 1) < GRACE_MS
      decreases |child.script|
    {
      var waited := child.WaitPid(false);
      if waited.None? {
        return Unfinished, polls;
      }
      match waited.value
      case Reaped(_) =>
        return TimedOut, polls;
      case Interrupted =>
        continue;
      case NoChild =>
        return TimedOut, polls;
      case WaitError =>
        return WaitFailed, polls;
      case Running =>
        if child.clock >= killDeadline {
          child.Kill(SIGKILL);
          var last := child.WaitPid(true);
          if last.None? {
            return Unfinished, polls;
          }
          return if last.value.Reaped? || last.value.NoChild? then TimedOut else WaitFailed, polls;
        }
        child.Sleep(50);
        polls := polls + 1;
    }
  }

  // ---- The restore wait loop -------------------------------------------------------------------

  /** The first signal is forwarded once; every later one is SIGKILL, no sooner than the grace period. */
  ghost predicate ForwardedThenKilled(signals: seq<Sent>) {
    forall i :: 1 <= i < |signals| ==> signals[i].number == 9 && signals[i].at >= signals[0].at + 500
  }

  /** `signal` is the termination signal heard last when it was sent. */
  ghost predicate LastHeard(heard: seq<Heard>, signal: Sent) {
    exists i ::
      && 0 <= i < |heard| && heard[i].number == signal.number && signal.number != 0 && heard[i].at <= signal.at
      && forall j :: i < j < |heard| ==> heard[j].at >= signal.at
  }

  lemma HeardMore(heard: seq<Heard>, more: Heard, signal: Sent)
    requires LastHeard(heard, signal) && more.at >= signal.at
    ensures LastHeard(heard + [more], signal)
  {
    var all := heard + [more];
    var i :| 0 <= i < |heard| && heard[i].number == signal.number && heard[i].at <= signal.at
             && forall j :: i < j < |heard| ==> heard[j].at >= signal.at;
    assert all[i] == heard[i];
  }

  /** The signal to forward: the caught one; the loop polls without one only after forwarding. */
  method Forward(child: Child)
    requires child.Listening() && child.caught != 0 && child.signals == []
    modifies child`signals
    ensures child.signals == [Sent(child.caught, child.clock)] && LastHeard(child.heard, child.signals[0])
  {
    child.Kill(if child.caught != 0 then child.caught else SIGTERM);
    assert child.heard[|child.heard| - 1].number == child.caught;
  }

  /** The loop's state: whether the signal was forwarded, when to kill, and how often the child was still running. */
  ghost predicate Waiting(child: Child, forwarded: bool, terminationDeadline: int, polls: nat)
    reads child
  {
    && child.reaped == None && child.Listening()
    && (child.caught != 0 <==> forwarded) && (forwarded <==> child.signals != [])
    && (!forwarded ==> polls == 0)
    && (forwarded ==>
          && terminationDeadline == child.signals[0].at + 500 && polls <= |child.signals| + 9
          && child.clock >= child.signals[0].at + 50 * polls && LastHeard(child.heard, child.signals[0]))
    && ForwardedThenKilled(child.signals)
  }

  /** Still running: forward the signal, or kill once the grace period is over, and sleep. */
  method StillRunning(child: Child, forwarded: bool, deadline: int, ghost polls: nat) returns (newDeadline: int)
    requires child.reaped == None && child.Listening() && child.caught != 0
    requires if forwarded then Waiting(child, true, deadline, polls) else child.signals == [] && polls == 0
    modifies child`signals, child`clock
    ensures Waiting(child, true, newDeadline, polls + 1)
  {
    newDeadline := deadline;
    if !forwarded {
      Forward(child);
      newDeadline := child.clock + RESTORE_GRACE_MS;
    } else if child.clock >= deadline {
      child.Kill(SIGKILL);
    }
    child.Sleep(50);
  }

  /**
   The worker's wait. `polls` counts the answers "still running": the first finds the signal forwarded or
   forwards it, and from the eleventh on each is answered with SIGKILL.
   */
  method AwaitRestore(child: Child) returns (v: Verdict, ghost polls: nat)
    requires child.signals == [] && child.reaped == None && child.caught == 0 && !child.gone && !child.failed
    requires child.heard == []
    modifies child
    ensures v == Success <==> child.reaped == Some(Exited(0)) && child.caught == 0
    ensures v == Success || v == WorkerFailed ==> child.signals == []
    ensures v == TimedOut <==> child.caught != 0 && child.reaped.Some?
    ensures v == WorkerFailed <==> child.reaped.Some? && child.reaped != Some(Exited(0)) && child.caught == 0
    ensures v == WaitFailed ==> child.reaped == None && (child.failed || child.gone)
    ensures child.signals != [] ==> LastHeard(child.heard, child.signals[0])
    ensures ForwardedThenKilled(child.signals)
    ensures polls > 0 ==> child.signals != [] && polls <= |child.signals| + 9
    ensures v == Unfinished ==> child.script == [] && (child.caught != 0 ==> child.signals != [])
  {
    var forwarded := false;
    var terminationDeadline := 0;
    polls := 0;
    while true
      invariant Waiting(child, forwarded, terminationDeadline, polls)
      decreases |child.script|
    {
      var noHang := child.caught != 0 || forwarded;
      ghost var heard := child.heard;
      var waited := child.WaitPid(!noHang);
      if forwarded && child.heard != heard {
        HeardMore(heard, child.heard[|heard|], child.signals[0]);
      }
      if waited.None? {
        return Unfinished, polls;
      }
      match waited.value
      case Reaped(status) =>
        if child.caught != 0 {
          return TimedOut, polls;
        }
        return if status == Exited(0) then Success else WorkerFailed, polls;
      case Running =>
        terminationDeadline := StillRunning(child, forwarded, terminationDeadline, polls);
        forwarded, polls := true, polls + 1;
      case Interrupted =>
        if child.caught != 0 && !forwarded {
          Forward(child);
          forwarded := true;
          terminationDeadline := child.clock + RESTORE_GRACE_MS;
        }
      case _ =>
        return WaitFailed, polls;
    }
  }
}
