/** Identifiers and the directory layout of the state root, as sequences of components. */
module Paths {
  import opened Decimal
  import opened Strings
  import opened Tokens

  type Path = seq<string>

  datatype JobKey = JobKey(uid: nat, jobId: string)
  datatype CheckpointKey = CheckpointKey(uid: nat, jobId: string, checkpointId: string) {
    function Job(): JobKey {
      JobKey(uid, jobId)
    }
  }

  // ---- Safe identifiers -----------------------------------------------------------

  predicate IsAlnum(c: char) {
    '0' <= c <= '9' || 'a' <= c <= 'z' || 'A' <= c <= 'Z'
  }

  predicate SafeId(value: string) {
    && 1 <= |value| <= 80
    && IsAlnum(value[0])
    && forall i :: 0 <= i < |value| ==> IsAlnum(value[i]) || value[i] == '-'
  }

  method IsSafeId(value: string) returns (safe: bool)
    ensures safe <==> SafeId(value)
  {
    if value == "" || |value| > 80 {
      return false;
    }
    if !IsAlnum(value[0]) {
      return false;
    }
    for index := 0 to |value|
      invariant forall i :: 0 <= i < index ==> IsAlnum(value[i]) || value[i] == '-'
    {
      if !(IsAlnum(value[index]) || value[index] == '-') {
        return false;
      }
    }
    return true;
  }

  /** A safe id is one ordinary path component: no separator, not `.` or `..`, and one line. */
  lemma SafeIdIsComponent(value: string)
    requires SafeId(value)
    ensures IsToken(value, '/') && '\n' !in value && '=' !in value && '\0' !in value
    ensures value != "." && value != ".."
  {}

  /** The longest safe id, and what is not safe: too long, empty, led by a dash, or with another character. */
  lemma SafeIdLimits(n: nat)
    ensures SafeId(seq(n, _ => 'a')) <==> 1 <= n <= 80
    ensures SafeId("a-Z9") && !SafeId("-a") && !SafeId("a_b") && !SafeId("a.b") && !SafeId("a/b")
  {
    assert "-a"[0] == '-' && "a_b"[1] == '_' && "a.b"[1] == '.' && "a/b"[1] == '/';
  }

  // ---- Layout -------------------------------------------------------------------------

  function UserDir(root: Path, uid: nat): Path {
    root + [ToString(uid)]
  }

  function JobsDir(root: Path, uid: nat): Path {
    UserDir(root, uid) + ["jobs"]
  }

  function ExportsDir(root: Path, uid: nat): Path {
    UserDir(root, uid) + ["exports"]
  }

  function JobDir(root: Path, k: JobKey): Path {
    JobsDir(root, k.uid) + [k.jobId]
  }

  function JobMetaPath(root: Path, k: JobKey): Path {
    JobDir(root, k) + ["job.meta"]
  }

  function CheckpointsDir(root: Path, k: JobKey): Path {
    JobDir(root, k) + ["checkpoints"]
  }

  function CheckpointDir(root: Path, k: CheckpointKey): Path {
    CheckpointsDir(root, k.Job()) + [k.checkpointId]
  }

  function CheckpointMetaPath(root: Path, k: CheckpointKey): Path {
    CheckpointDir(root, k) + ["checkpoint.meta"]
  }

  function ExportCheckpointDir(root: Path, k: CheckpointKey): Path {
    ExportsDir(root, k.uid) + [k.jobId, k.checkpointId]
  }

  // ---- Confinement ----------------------------------------------------------------------

  /** `candidate` is `root` or lies under it. */
  predicate Beneath(root: Path, candidate: Path) {
    root <= candidate
  }

  method IsPathBeneath(root: Path, candidate: Path) returns (beneath: bool)
    ensures beneath <==> Beneath(root, candidate)
  {
    var k := 0;
    while k < |root| && k < |candidate|
      invariant 0 <= k <= |root| && k <= |candidate|
      invariant root[..k] == candidate[..k]
    {
      if root[k] != candidate[k] {
        return false;
      }
      k := k + 1;
    }
    return k == |root|;
  }

  /** The components of a laid-out path after the root. */
  lemma LayoutShape(root: Path, k: CheckpointKey)
    ensures CheckpointDir(root, k) == root + [ToString(k.uid), "jobs", k.jobId, "checkpoints", k.checkpointId]
    ensures CheckpointMetaPath(root, k)
         == root + [ToString(k.uid), "jobs", k.jobId, "checkpoints", k.checkpointId, "checkpoint.meta"]
    ensures ExportCheckpointDir(root, k) == root + [ToString(k.uid), "exports", k.jobId, k.checkpointId]
    ensures JobMetaPath(root, k.Job()) == root + [ToString(k.uid), "jobs", k.jobId, "job.meta"]
  {}

  lemma BelowRoot(root: Path, a: Path, b: Path)
    ensures Beneath(root + a, root + b) <==> a <= b
  {
    if Beneath(root + a, root + b) {
      assert (root + a)[|root|..] == a && (root + b)[|root|..|root| + |a|] == b[..|a|];
    }
  }

  /** No checkpoint's tree contains another checkpoint's directory or metadata. */
  lemma CheckpointTreesDisjoint(root: Path, k: CheckpointKey, l: CheckpointKey)
    ensures Beneath(CheckpointDir(root, k), CheckpointDir(root, l)) <==> k == l
    ensures Beneath(CheckpointDir(root, k), CheckpointMetaPath(root, l)) <==> k == l
  {
    LayoutShape(root, k);
    LayoutShape(root, l);
    var a := [ToString(k.uid), "jobs", k.jobId, "checkpoints", k.checkpointId];
    var b := [ToString(l.uid), "jobs", l.jobId, "checkpoints", l.checkpointId];
    BelowRoot(root, a, b);
    BelowRoot(root, a, b + ["checkpoint.meta"]);
    assert b + ["checkpoint.meta"]
        == [ToString(l.uid), "jobs", l.jobId, "checkpoints", l.checkpointId, "checkpoint.meta"];
    if a <= b + ["checkpoint.meta"] {
      assert a == b;
      assert a[0] == b[0] && a[2] == b[2] && a[4] == b[4];
      ToStringInjective(k.uid, l.uid);
    }
  }

  /** Private trees and exports never contain one another, and exports are told apart by their key. */
  lemma ExportsApart(root: Path, k: CheckpointKey, l: CheckpointKey)
    ensures !Beneath(CheckpointDir(root, k), ExportCheckpointDir(root, l))
    ensures !Beneath(ExportCheckpointDir(root, l), CheckpointDir(root, k))
    ensures Beneath(ExportCheckpointDir(root, k), ExportCheckpointDir(root, l)) <==> k == l
  {
    LayoutShape(root, k);
    LayoutShape(root, l);
    var a := [ToString(k.uid), "jobs", k.jobId, "checkpoints", k.checkpointId];
    var ea := [ToString(k.uid), "exports", k.jobId, k.checkpointId];
    var eb := [ToString(l.uid), "exports", l.jobId, l.checkpointId];
    BelowRoot(root, a, eb);
    BelowRoot(root, eb, a);
    BelowRoot(root, ea, eb);
    assert a[1] != eb[1];
    if ea <= eb {
      assert ea[0] == eb[0] && ea[2] == eb[2] && ea[3] == eb[3];
      ToStringInjective(k.uid, l.uid);
    }
  }

  /** Removing a checkpoint's trees cannot touch a job's metadata. */
  lemma JobMetaApart(root: Path, k: CheckpointKey, j: JobKey)
    ensures !Beneath(CheckpointDir(root, k), JobMetaPath(root, j))
    ensures !Beneath(ExportCheckpointDir(root, k), JobMetaPath(root, j))
  {
    LayoutShape(root, k);
    LayoutShape(root, CheckpointKey(j.uid, j.jobId, ""));
    BelowRoot(root, [ToString(k.uid), "jobs", k.jobId, "checkpoints", k.checkpointId],
              [ToString(j.uid), "jobs", j.jobId, "job.meta"]);
    BelowRoot(root, [ToString(k.uid), "exports", k.jobId, k.checkpointId],
              [ToString(j.uid), "jobs", j.jobId, "job.meta"]);
    assert [ToString(k.uid), "exports", k.jobId, k.checkpointId][1]
        != [ToString(j.uid), "jobs", j.jobId, "job.meta"][1];
  }

  /** The metadata files of different records are different files. */
  lemma MetaPathsInjective(root: Path, j: JobKey, i: JobKey, k: CheckpointKey)
    ensures JobMetaPath(root, j) == JobMetaPath(root, i) <==> j == i
    ensures JobMetaPath(root, j) != CheckpointMetaPath(root, k)
  {
    if JobMetaPath(root, j) == JobMetaPath(root, i) {
      assert JobMetaPath(root, j)[|root|] == ToString(j.uid);
      assert JobMetaPath(root, i)[|root|] == ToString(i.uid);
      assert JobMetaPath(root, j)[|root| + 2] == j.jobId;
      assert JobMetaPath(root, i)[|root| + 2] == i.jobId;
      ToStringInjective(j.uid, i.uid);
    }
  }

  // ---- As strings -------------------------------------------------------------------------

  /** An absolute path as the daemon passes it on a command line. */
  function Render(p: Path): string {
    if p == [] then "" else "/" + p[0] + Render(p[1..])
  }

  /** A component that names an entry rather than a direction. */
  predicate IsName(component: string) {
    component != "." && component != ".."
  }

  /** The components once `.` and `..` are followed, as on a file system without links. */
  function Resolve(p: Path): (r: Path)
    ensures forall i :: 0 <= i < |r| ==> IsName(r[i])
  {
    if p == [] then []
    else
      var front, last := Resolve(p[..|p| - 1]), p[|p| - 1];
      if last == "." then front
      else if last == ".." then if front == [] then [] else front[..|front| - 1]
      else front + [last]
  }

  lemma OneNameMore(dir: Path, names: Path)
    requires names != []
    ensures var n := |names| - 1;
            && dir + names != [] && (dir + names)[..|dir + names| - 1] == dir + names[..n]
            && (dir + names)[|dir + names| - 1] == names[n] && names == names[..n] + [names[n]]
  {}

  /** Names below a directory stay names below the directory it resolves to. */
  lemma {:induction false} ResolveBelow(dir: Path, names: Path)
    requires forall i :: 0 <= i < |names| ==> IsName(names[i])
    ensures Resolve(dir + names) == Resolve(dir) + names
  {
    if names == [] {
      assert dir + names == dir && Resolve(dir) + names == Resolve(dir);
    } else {
      var n := |names| - 1;
      ResolveBelow(dir, names[..n]);
      OneNameMore(dir, names);
      ConcatAssociative(Resolve(dir), names[..n], [names[n]]);
    }
  }

  /** A directory reached through its parent leaves the directory. */
  lemma ResolveUp(dir: Path, name: string)
    requires Resolve(dir) != [] && IsName(name)
    ensures Resolve(dir + ["..", name]) == Resolve(dir)[..|Resolve(dir)| - 1] + [name]
  {
    var up := dir + [".."];
    assert up[..|up| - 1] == dir;
    assert dir + ["..", name] == up + [name];
    ResolveBelow(up, [name]);
  }

  /** A path read from text: its components, resolved. */
  function ParsePath(s: string): Path {
    Resolve(Split(s, '/'))
  }

  lemma TokenThenSlash(t: string, more: string)
    requires IsToken(t, '/')
    ensures Split(t + ("/" + more), '/') == [t] + Split("/" + more, '/')
  {
    SplitLeading(more, '/');
    SplitOne(t, more, '/');
    ConcatAssociative(t, "/", more);
  }

  lemma TokenThenPath(t: string, p: Path)
    requires IsToken(t, '/')
    ensures Split(t + Render(p), '/') == [t] + Split(Render(p), '/')
  {
    if p == [] {
      SplitLast(t, '/');
      assert t + Render(p) == t;
    } else {
      var more := p[0] + Render(p[1..]);
      ConcatAssociative("/", p[0], Render(p[1..]));
      TokenThenSlash(t, more);
    }
  }

  /** A rendered path splits into its components, and is read as the path they resolve to. */
  lemma {:induction false} ParseRender(p: Path)
    requires AllTokens(p, '/')
    ensures Split(Render(p), '/') == p && ParsePath(Render(p)) == Resolve(p)
  {
    if p != [] {
      ParseRender(p[1..]);
      TokenThenPath(p[0], p[1..]);
      SplitLeading(p[0] + Render(p[1..]), '/');
      ConcatAssociative("/", p[0], Render(p[1..]));
    }
  }
}
