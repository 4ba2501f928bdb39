/**
 Process identity: which process a stored pid and start time denote, and whether it is
 still the caller's own unprivileged process.
 */
module Processes {
  import opened Decimal
  import opened Outcomes
  import opened Records

  /** Real, effective, saved and filesystem ids; inheritable, permitted, effective and ambient masks. */
  datatype Status = Status(startTicks: string, uids: Four<nat>, gids: Four<nat>, caps: Four<string>)

  datatype Four<T> = Four(a: T, b: T, c: T, d: T)

  /** A process; `readable` says whether its `/proc` entry can be read and parsed. */
  datatype Process = Process(incarnation: nat, readable: bool, status: Status)

  /** The process table at one moment. */
  type Snapshot = map<int, Process>

  // ---- The checks --------------------------------------------------------------------------

  predicate Alive(s: Snapshot, pid: int) {
    pid > 0 && pid in s
  }

  predicate IdentityMatches(s: Snapshot, pid: int, uid: nat, gid: nat, ticks: string) {
    && pid > 0 && ticks != "" && Alive(s, pid) && s[pid].readable
    && s[pid].status.uids.a == uid && s[pid].status.gids.a == gid && s[pid].status.startTicks == ticks
  }

  predicate AllFour(values: Four<nat>, expected: nat) {
    values == Four(expected, expected, expected, expected)
  }

  /** A mask with at least one digit and no digit but zero. */
  predicate ZeroMask(mask: string) {
    && (exists i :: 0 <= i < |mask| && !IsSpace(mask[i]))
    && forall i :: 0 <= i < |mask| ==> IsSpace(mask[i]) || mask[i] == '0'
  }

  method IsZeroCapabilityMask(mask: string) returns (zero: bool)
    ensures zero <==> ZeroMask(mask)
  {
    var sawDigit := false;
    for i := 0 to |mask|
      invariant sawDigit <==> exists j :: 0 <= j < i && !IsSpace(mask[j])
      invariant forall j :: 0 <= j < i ==> IsSpace(mask[j]) || mask[j] == '0'
    {
      if IsSpace(mask[i]) {
        continue;
      }
      sawDigit := true;
      if mask[i] != '0' {
        return false;
      }
    }
    return sawDigit;
  }

  predicate Unprivileged(status: Status, uid: nat, gid: nat) {
    && AllFour(status.uids, uid) && AllFour(status.gids, gid)
    && ZeroMask(status.caps.a) && ZeroMask(status.caps.b) && ZeroMask(status.caps.c) && ZeroMask(status.caps.d)
  }

  predicate SecurityMatches(s: Snapshot, pid: int, uid: nat, gid: nat, ticks: string) {
    && pid > 0 && ticks != "" && Alive(s, pid) && s[pid].readable
    && s[pid].status.startTicks == ticks && Unprivileged(s[pid].status, uid, gid)
  }

  method MatchesExpectedTuple(values: Four<nat>, expected: nat) returns (matches: bool)
    ensures matches <==> AllFour(values, expected)
  {
    var list := [values.a, values.b, values.c, values.d];
    for i := 0 to |list|
      invariant forall j :: 0 <= j < i ==> list[j] == expected
    {
      if list[i] != expected {
        assert !AllFour(values, expected);
        return false;
      }
    }
    assert list[0] == list[1] == list[2] == list[3] == expected;
    return true;
  }

  /** The check before a dump or an adoption, step by step. */
  method ProcessMatchesPeerSecurity(s: Snapshot, pid: int, uid: nat, gid: nat, ticks: string) returns (safe: bool)
    ensures safe <==> SecurityMatches(s, pid, uid, gid, ticks)
  {
    if pid <= 0 || ticks == "" || !Alive(s, pid) || !s[pid].readable {
      return false;
    }
    var status := s[pid].status;
    if status.startTicks != ticks {
      return false;
    }
    var uids := MatchesExpectedTuple(status.uids, uid);
    var gids := MatchesExpectedTuple(status.gids, gid);
    if !uids || !gids {
      return false;
    }
    var inheritable := IsZeroCapabilityMask(status.caps.a);
    var permitted := IsZeroCapabilityMask(status.caps.b);
    var effective := IsZeroCapabilityMask(status.caps.c);
    var ambient := IsZeroCapabilityMask(status.caps.d);
    return inheritable && permitted && effective && ambient;
  }

  /**
   The check passes exactly for a readable process under that pid and start time whose real, effective,
   saved and filesystem ids are all the owner's and each of whose four capability masks has a digit and
   no digit but zero.
   */
  lemma SecurityExactly(s: Snapshot, pid: int, uid: nat, gid: nat, ticks: string)
    ensures SecurityMatches(s, pid, uid, gid, ticks) <==>
            && pid > 0 && ticks != "" && pid in s && s[pid].readable
            && var status := s[pid].status;
            && status.startTicks == ticks
            && status.uids.a == uid && status.uids.b == uid && status.uids.c == uid && status.uids.d == uid
            && status.gids.a == gid && status.gids.b == gid && status.gids.c == gid && status.gids.d == gid
            && forall mask :: mask in [status.caps.a, status.caps.b, status.caps.c, status.caps.d] ==>
                 && (exists i :: 0 <= i < |mask| && !IsSpace(mask[i]))
                 && forall i :: 0 <= i < |mask| && !IsSpace(mask[i]) ==> mask[i] == '0'
  {
    if pid in s {
      var caps := s[pid].status.caps;
      var masks := [caps.a, caps.b, caps.c, caps.d];
      assert masks[0] in masks && masks[1] in masks && masks[2] in masks && masks[3] in masks;
    }
  }

  /** All ids are the owner's and no capability is held, spelled out. */
  ghost predicate OwnAndPowerless(status: Status, uid: nat, gid: nat) {
    && status.uids == Four(uid, uid, uid, uid) && status.gids == Four(gid, gid, gid, gid)
    && forall mask :: mask in [status.caps.a, status.caps.b, status.caps.c, status.caps.d] ==>
         && (exists i :: 0 <= i < |mask| && !IsSpace(mask[i]))
         && forall i :: 0 <= i < |mask| && !IsSpace(mask[i]) ==> mask[i] == '0'
  }

  lemma SecureIsOwnAndPowerless(s: Snapshot, job: JobRecord)
    requires JobSecurity(s, job)
    ensures OwnAndPowerless(s[job.pid].status, job.ownerUid, job.ownerGid)
  {
    SecurityExactly(s, job.pid, job.ownerUid, job.ownerGid, job.startTimeTicks);
  }

  /** A set-uid process: started by its owner, running as root. */
  lemma SetUidRefused(s: Snapshot, pid: int, gid: nat, ticks: string)
    requires pid in s && s[pid].status.uids == Four(1000, 0, 0, 0)
    ensures !SecurityMatches(s, pid, 1000, gid, ticks)
  {}

  /** A process of its owner that holds nothing but an ambient capability. */
  lemma AmbientRefused(s: Snapshot, pid: int, uid: nat, gid: nat, ticks: string)
    requires pid in s && s[pid].status.caps == Four("0", "0", "0", "1")
    ensures !SecurityMatches(s, pid, uid, gid, ticks)
  {
    assert s[pid].status.caps.d[0] == '1';
  }

  /** The weaker check looks at the real ids only. */
  lemma IdentityExactly(s: Snapshot, pid: int, uid: nat, gid: nat, ticks: string)
    ensures IdentityMatches(s, pid, uid, gid, ticks) <==>
            && pid > 0 && ticks != "" && pid in s && s[pid].readable && s[pid].status.startTicks == ticks
            && s[pid].status.uids.a == uid && s[pid].status.gids.a == gid
  {}

  predicate JobIdentity(s: Snapshot, job: JobRecord) {
    IdentityMatches(s, job.pid, job.ownerUid, job.ownerGid, job.startTimeTicks)
  }

  predicate JobSecurity(s: Snapshot, job: JobRecord) {
    SecurityMatches(s, job.pid, job.ownerUid, job.ownerGid, job.startTimeTicks)
  }

  /** A process that passes the security check is the recorded one; the converse fails exactly on privilege. */
  lemma SecurityImpliesIdentity(s: Snapshot, job: JobRecord)
    ensures JobSecurity(s, job) ==> JobIdentity(s, job)
    ensures JobIdentity(s, job) && !JobSecurity(s, job) ==>
            var status := s[job.pid].status;
            || status.uids != Four(job.ownerUid, job.ownerUid, job.ownerUid, job.ownerUid)
            || status.gids != Four(job.ownerGid, job.ownerGid, job.ownerGid, job.ownerGid)
            || exists mask :: mask in [status.caps.a, status.caps.b, status.caps.c, status.caps.d] && !ZeroMask(mask)
  {
    if JobIdentity(s, job) {
      var caps := s[job.pid].status.caps;
      var masks := [caps.a, caps.b, caps.c, caps.d];
      assert masks[0] in masks && masks[1] in masks && masks[2] in masks && masks[3] in masks;
    }
  }

  // ---- Liveness -------------------------------------------------------------------------------

  function Liveness(s: Snapshot, job: JobRecord): string {
    if JobSecurity(s, job) then "running"
    else if JobIdentity(s, job) then "unsafe"
    else if Alive(s, job.pid) then "stale"
    else "exited"
  }

  /** The four states partition the snapshots by the two checks and by whether the pid is in use. */
  lemma LivenessPartition(s: Snapshot, job: JobRecord)
    ensures Liveness(s, job) == "running" <==> JobSecurity(s, job)
    ensures Liveness(s, job) == "unsafe" <==> JobIdentity(s, job) && !JobSecurity(s, job)
    ensures Liveness(s, job) == "stale" <==> Alive(s, job.pid) && !JobIdentity(s, job)
    ensures Liveness(s, job) == "exited" <==> !Alive(s, job.pid)
  {
    assert "running"[0] == 'r' && "unsafe"[0] == 'u' && "stale"[0] == 's' && "exited"[0] == 'e';
    SecurityImpliesIdentity(s, job);
  }

  /** Taking over the process a restore reports, if it is the owner's own. */
  function AdoptManagedPid(s: Snapshot, job: JobRecord, pid: int): (r: Result<JobRecord>)
    ensures r.Ok? <==> pid in s && SecurityMatches(s, pid, job.ownerUid, job.ownerGid, s[pid].status.startTicks)
    ensures r.Ok? ==> JobSecurity(s, r.value) && r.value.pid == pid
    ensures r.Ok? ==> r.value == job.(pid := pid, startTimeTicks := r.value.startTimeTicks, state := "running")
  {
    if !(pid in s && s[pid].readable) then Err("no such process")
    else
      var ticks := s[pid].status.startTicks;
      if SecurityMatches(s, pid, job.ownerUid, job.ownerGid, ticks)
      then Ok(job.(pid := pid, startTimeTicks := ticks, state := "running"))
      else Err("restored pid failed security validation")
  }

  // ---- The process table over time -----------------------------------------------------------------

  /** `started` remembers every pid and start time that ever went together. */
  datatype History = History(table: Snapshot, started: set<(int, string)>, next: nat)

  datatype Event =
    | Spawn(pid: int, status: Status)
    | Exit(pid: int)
    | ChangeCredentials(pid: int, uids: Four<nat>, gids: Four<nat>, caps: Four<string>)
    | ChangeReadable(pid: int, readable: bool)

  /** A pid is reused only once free, and never with a start time it had before. */
  ghost predicate Possible(w: History, e: Event) {
    match e
    case Spawn(pid, status) => pid !in w.table && (pid, status.startTicks) !in w.started
    case Exit(pid) => pid in w.table
    case ChangeCredentials(pid, _, _, _) => pid in w.table
    case ChangeReadable(pid, _) => pid in w.table
  }

  ghost function After(w: History, e: Event): History
    requires Possible(w, e)
  {
    match e
    case Spawn(pid, status) =>
      History(w.table[pid := Process(w.next, true, status)], w.started + {(pid, status.startTicks)}, w.next + 1)
    case Exit(pid) => w.(table := w.table - {pid})
    case ChangeCredentials(pid, uids, gids, caps) =>
      var p := w.table[pid];
      w.(table := w.table[pid := p.(status := p.status.(uids := uids, gids := gids, caps := caps))])
    case ChangeReadable(pid, readable) => w.(table := w.table[pid := w.table[pid].(readable := readable)])
  }

  ghost predicate PossibleRun(w: History, events: seq<Event>)
    decreases |events|
  {
    events == [] || (Possible(w, events[0]) && PossibleRun(After(w, events[0]), events[1..]))
  }

  ghost function AfterRun(w: History, events: seq<Event>): History
    requires PossibleRun(w, events)
    decreases |events|
  {
    if events == [] then w else AfterRun(After(w, events[0]), events[1..])
  }

  /** Start times of running processes are remembered. */
  ghost predicate Remembered(w: History) {
    forall pid :: pid in w.table ==> (pid, w.table[pid].status.startTicks) in w.started
  }

  /** The pair was used, and whatever runs under it now is the incarnation `n`. */
  ghost predicate Denotes(w: History, pid: int, ticks: string, n: nat) {
    && (pid, ticks) in w.started
    && (pid in w.table && w.table[pid].status.startTicks == ticks ==> w.table[pid].incarnation == n)
  }

  lemma {:induction false} DenotesForever(w: History, events: seq<Event>, pid: int, ticks: string, n: nat)
    requires PossibleRun(w, events) && Denotes(w, pid, ticks, n)
    ensures Denotes(AfterRun(w, events), pid, ticks, n)
    decreases |events|
  {
    if events != [] {
      DenotesForever(After(w, events[0]), events[1..], pid, ticks, n);
    }
  }

  lemma {:induction false} RememberedForever(w: History, events: seq<Event>)
    requires Remembered(w) && PossibleRun(w, events)
    ensures Remembered(AfterRun(w, events))
    decreases |events|
  {
    if events != [] {
      RememberedForever(After(w, events[0]), events[1..]);
    }
  }

  /** Before any process started. */
  const NO_PROCESSES := History(map[], {}, 0)

  /** The job holds the pid and start time of a running process, as read at launch or adoption. */
  predicate RecordedIn(s: Snapshot, job: JobRecord) {
    job.pid in s && s[job.pid].status.startTicks == job.startTimeTicks
  }

  /**
   A process table evolves, a job is recorded from it, the table evolves further: if the job then
   passes the check, it denotes the process it was recorded from, however often pids were reused
   and whatever credentials changed meanwhile.
   */
  lemma SameIncarnation(before: seq<Event>, after: seq<Event>, job: JobRecord)
    requires PossibleRun(NO_PROCESSES, before) && PossibleRun(AfterRun(NO_PROCESSES, before), after)
    requires RecordedIn(AfterRun(NO_PROCESSES, before).table, job)
    ensures var w := AfterRun(NO_PROCESSES, before);
            var v := AfterRun(w, after);
            && (JobIdentity(v.table, job) ==> v.table[job.pid].incarnation == w.table[job.pid].incarnation)
            && (JobSecurity(v.table, job) ==>
                  && v.table[job.pid].incarnation == w.table[job.pid].incarnation
                  && Unprivileged(v.table[job.pid].status, job.ownerUid, job.ownerGid)
                  && OwnAndPowerless(v.table[job.pid].status, job.ownerUid, job.ownerGid))
  {
    var w := AfterRun(NO_PROCESSES, before);
    if JobSecurity(AfterRun(w, after).table, job) {
      SecureIsOwnAndPowerless(AfterRun(w, after).table, job);
    }
    RememberedForever(NO_PROCESSES, before);
    DenotesForever(w, after, job.pid, job.startTimeTicks, w.table[job.pid].incarnation);
  }
}
