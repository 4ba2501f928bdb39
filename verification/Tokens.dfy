/**
 Splitting a string at a separator and dropping the empty pieces. The control
 protocol does this at NUL bytes, the metadata files at newlines, a path at
 slashes: each decoder is a walk over `Split`.
 */
module Tokens {
  import opened Strings

  predicate IsToken(t: string, sep: char) {
    t != "" && sep !in t
  }

  predicate AllTokens(ts: seq<string>, sep: char) {
    forall i :: 0 <= i < |ts| ==> IsToken(ts[i], sep)
  }

  /** What is left of `s` once the piece before its first separator is consumed. */
  function After(s: string, sep: char): (rest: string)
    requires s != ""
    ensures |rest| < |s|
  {
    var e := Find(s, sep);
    if e == |s| then "" else s[e + 1..]
  }

  /** The non-empty pieces of `s` between separators, in order. */
  function Split(s: string, sep: char): (ts: seq<string>)
    ensures AllTokens(ts, sep)
    decreases |s|
  {
    if s == "" then []
    else
      var piece := s[..Find(s, sep)];
      assert s[0..Find(s, sep)] == piece;
      (if piece == "" then [] else [piece]) + Split(After(s, sep), sep)
  }

  /** Every token followed by one separator. */
  function Terminated(ts: seq<string>, sep: char): string {
    if ts == [] then "" else ts[0] + [sep] + Terminated(ts[1..], sep)
  }

  lemma SplitOne(t: string, rest: string, sep: char)
    requires IsToken(t, sep)
    ensures Split(t + [sep] + rest, sep) == [t] + Split(rest, sep)
  {
    var s := t + [sep] + rest;
    assert s[0..|t|] == t;
    FindIs(s, sep, 0, |t|);
    assert After(s, sep) == rest;
    assert s[..|t|] == t;
  }

  lemma SplitLast(t: string, sep: char)
    requires IsToken(t, sep)
    ensures Split(t, sep) == [t]
  {
    assert t[0..|t|] == t;
    FindIs(t, sep, 0, |t|);
    assert t[..|t|] == t;
  }

  lemma SplitLeading(rest: string, sep: char)
    ensures Split([sep] + rest, sep) == Split(rest, sep)
  {
    var s := [sep] + rest;
    FindIs(s, sep, 0, 0);
    assert s[..0] == "" && After(s, sep) == rest;
  }

  /** Splitting undoes termination. */
  lemma {:induction false} SplitTerminated(ts: seq<string>, sep: char)
    requires AllTokens(ts, sep)
    ensures Split(Terminated(ts, sep), sep) == ts
  {
    if ts != [] {
      SplitOne(ts[0], Terminated(ts[1..], sep), sep);
      SplitTerminated(ts[1..], sep);
    }
  }

  lemma {:induction false} TerminatedAppend(a: seq<string>, b: seq<string>, sep: char)
    ensures Terminated(a + b, sep) == Terminated(a, sep) + Terminated(b, sep)
  {
    if a == [] {
      assert a + b == b;
    } else {
      assert (a + b)[1..] == a[1..] + b;
      TerminatedAppend(a[1..], b, sep);
    }
  }

  /** Splitting and terminating again costs at most one separator. */
  lemma {:induction false} TerminatedSplitLength(s: string, sep: char)
    ensures |Terminated(Split(s, sep), sep)| <= |s| + 1
    ensures s != "" && s[|s| - 1] == sep ==> |Terminated(Split(s, sep), sep)| <= |s|
    decreases |s|
  {
    if s != "" {
      var e := Find(s, sep);
      var piece := s[..e];
      var rest := After(s, sep);
      TerminatedSplitLength(rest, sep);
      assert s[0..e] == piece;
      if piece != "" {
        assert Split(s, sep) == [piece] + Split(rest, sep);
        assert Split(s, sep)[1..] == Split(rest, sep);
      } else {
        assert Split(s, sep) == Split(rest, sep);
      }
    }
  }

  lemma {:induction false} FindInSuffix(s: string, sep: char, from: nat, start: nat)
    requires start <= from <= |s|
    ensures Find(s, sep, from) == start + Find(s[start..], sep, from - start)
    decreases |s| - from
  {
    if from < |s| && s[from] != sep {
      FindInSuffix(s, sep, from + 1, start);
    }
  }

  /** Where a decoder's cursor goes after the piece ending at `end`. */
  function Next(s: string, end: nat): (next: nat)
    requires end <= |s|
    ensures end <= next <= |s|
  {
    if end == |s| then |s| else end + 1
  }

  /** One step of a decoder's cursor consumes one piece. */
  lemma SplitStep(s: string, sep: char, cursor: nat)
    requires cursor < |s|
    ensures var end := Find(s, sep, cursor);
            var piece := s[cursor..end];
            Split(s[cursor..], sep) == (if piece == "" then [] else [piece]) + Split(s[Next(s, end)..], sep)
  {
    var rest := s[cursor..];
    FindInSuffix(s, sep, cursor, cursor);
    var end := Find(s, sep, cursor);
    assert rest[..Find(rest, sep)] == s[cursor..end];
    assert After(rest, sep) == s[Next(s, end)..];
  }
}
