/**
 Rendering an argv as one line, and splitting a line into words as section 2.2 of the
 POSIX.1-2017 Shell Command Language quotes them, without expansions.
 */
module CommandLine {

  predicate IsBlank(c: char) {
    c == ' ' || c == '\t' || c == '\n'
  }

  /** The characters that make a token need quoting. */
  predicate IsSpecial(c: char) {
    IsBlank(c) || c == '\'' || c == '"' || c == '\\'
  }

  // ---- Rendering ----------------------------------------------------------------------

  function EscapeChar(c: char): string {
    if c == '\'' then "'\\''" else [c]
  }

  function Escape(token: string): string {
    if token == "" then "" else EscapeChar(token[0]) + Escape(token[1..])
  }

  predicate NeedsQuotes(token: string) {
    exists i :: 0 <= i < |token| && IsSpecial(token[i])
  }

  function Quote(token: string): string {
    if NeedsQuotes(token) then "'" + Escape(token) + "'" else token
  }

  /** A token without blanks, quotes and backslashes is written as it is; any other is wrapped in single quotes. */
  lemma WrittenAsIs(token: string)
    ensures Quote(token) == token <==>
            forall i :: 0 <= i < |token| ==> token[i] !in {' ', '\t', '\n', '\'', '"', '\\'}
    ensures Quote(token) != token ==>
            |Quote(token)| >= 2 && Quote(token)[0] == '\'' && Quote(token)[|Quote(token)| - 1] == '\''
  {
    if NeedsQuotes(token) {
      EscapeGrows(token);
    }
  }

  lemma {:induction false} EscapeGrows(token: string)
    ensures |Escape(token)| >= |token|
  {
    if token != "" {
      EscapeGrows(token[1..]);
    }
  }

  /** The tokens, each after a space. */
  function Spaced(argv: seq<string>): string {
    if argv == [] then "" else " " + Quote(argv[0]) + Spaced(argv[1..])
  }

  function Join(argv: seq<string>): string {
    if argv == [] then "" else Quote(argv[0]) + Spaced(argv[1..])
  }

  /** The line once the first `i` tokens are written. */
  function Written(argv: seq<string>, i: nat): string
    requires i <= |argv|
  {
    if i == 0 then "" else Written(argv, i - 1) + (if i == 1 then "" else " ") + Quote(argv[i - 1])
  }

  lemma Regroup(a: string, b: string, c: string, d: string)
    ensures a + b + c + d == a + (b + c + d)
  {}

  lemma {:induction false} WrittenJoins(argv: seq<string>, i: nat)
    requires 1 <= i <= |argv|
    ensures Written(argv, i) + Spaced(argv[i..]) == Join(argv)
  {
    if i > 1 {
      WrittenJoins(argv, i - 1);
      assert argv[i - 1..][1..] == argv[i..];
      var before, token, rest := Written(argv, i - 1), Quote(argv[i - 1]), Spaced(argv[i..]);
      assert Spaced(argv[i - 1..]) == " " + token + rest;
      Regroup(before, " ", token, rest);
    } else {
      assert Written(argv, 1) == Quote(argv[0]);
    }
  }

  method JoinCommandLine(argv: seq<string>) returns (output: string)
    ensures output == Join(argv)
  {
    output := "";
    var first := true;
    for i := 0 to |argv|
      invariant first <==> i == 0
      invariant output == Written(argv, i)
    {
      if !first {
        output := output + " ";
      }
      first := false;
      var rendered := RenderToken(argv[i]);
      output := output + rendered;
    }
    if |argv| > 0 {
      WrittenJoins(argv, |argv|);
    }
  }

  method RenderToken(token: string) returns (output: string)
    ensures output == Quote(token)
  {
    if !NeedsQuotes(token) {
      return token;
    }
    output := "'";
    var i := 0;
    while i < |token|
      invariant i <= |token|
      invariant output + Escape(token[i..]) == "'" + Escape(token)
    {
      assert token[i..][1..] == token[i + 1..];
      assert output + (EscapeChar(token[i]) + Escape(token[i + 1..]))
          == output + EscapeChar(token[i]) + Escape(token[i + 1..]);
      output := output + EscapeChar(token[i]);
      i := i + 1;
    }
    assert output == "'" + Escape(token);
    output := output + "'";
  }

  // ---- Splitting -------------------------------------------------------------------------

  datatype Mode = Plain | Single | Double

  /** The words of `s`, reading on in `mode` with the word `word` begun when `begun`. */
  function Words(s: string, mode: Mode, word: string, begun: bool): seq<string> {
    if s == "" then (if begun then [word] else [])
    else
      var c, rest := s[0], s[1..];
      match mode
      case Single => if c == '\'' then Words(rest, Plain, word, true) else Words(rest, Single, word + [c], true)
      case Double =>
        if c == '"' then Words(rest, Plain, word, true)
        else if c == '\\' && rest != "" && rest[0] in "$`\"\\" then Words(rest[1..], Double, word + [rest[0]], true)
        else if c == '\\' && rest != "" && rest[0] == '\n' then Words(rest[1..], Double, word, true)
        else Words(rest, Double, word + [c], true)
      case Plain =>
        if IsBlank(c) then (if begun then [word] else []) + Words(rest, Plain, "", false)
        else if c == '\'' then Words(rest, Single, word, true)
        else if c == '"' then Words(rest, Double, word, true)
        else if c == '\\' && rest != "" && rest[0] == '\n' then Words(rest[1..], Plain, word, begun)
        else if c == '\\' && rest != "" then Words(rest[1..], Plain, word + [rest[0]], true)
        else Words(rest, Plain, word + [c], true)
  }

  function SplitWords(line: string): seq<string> {
    Words(line, Plain, "", false)
  }

  // ---- Splitting undoes rendering -----------------------------------------------------------

  lemma {:induction false} PlainToken(t: string, rest: string, word: string, begun: bool)
    requires !NeedsQuotes(t)
    ensures Words(t + rest, Plain, word, begun) == Words(rest, Plain, word + t, begun || t != "")
  {
    if t == "" {
      assert t + rest == rest && word + t == word;
    } else {
      assert !IsSpecial(t[0]);
      forall i | 0 <= i < |t[1..]| ensures !IsSpecial(t[1..][i]) {
        assert !IsSpecial(t[i + 1]);
      }
      PlainToken(t[1..], rest, word + [t[0]], true);
      assert (t + rest)[1..] == t[1..] + rest;
      assert word + [t[0]] + t[1..] == word + t;
    }
  }

  lemma {:induction false} QuotedToken(t: string, rest: string, word: string)
    ensures Words(Escape(t) + "'" + rest, Single, word, true) == Words(rest, Plain, word + t, true)
  {
    if t == "" {
      assert Escape(t) + "'" + rest == "'" + rest;
      assert ("'" + rest)[1..] == rest && word + t == word;
    } else {
      var more := Escape(t[1..]) + "'" + rest;
      QuotedToken(t[1..], rest, word + [t[0]]);
      assert Escape(t) + "'" + rest == EscapeChar(t[0]) + more;
      assert word + [t[0]] + t[1..] == word + t;
      if t[0] == '\'' {
        EscapedQuote(more, word);
      } else {
        assert (EscapeChar(t[0]) + more)[1..] == more;
      }
    }
  }

  /** Inside single quotes, the four characters that stand for one quote add just it. */
  lemma EscapedQuote(more: string, word: string)
    ensures Words("'\\''" + more, Single, word, true) == Words(more, Single, word + ['\''], true)
  {
    var s, s1, s2, s3 := "'\\''" + more, "\\''" + more, "''" + more, "'" + more;
    assert s[1..] == s1 && s1[1..] == s2 && s2[1..] == s3 && s3[1..] == more;
    assert Words(s, Single, word, true) == Words(s1, Plain, word, true);
    assert Words(s1, Plain, word, true) == Words(s3, Plain, word + ['\''], true);
    assert Words(s3, Plain, word + ['\''], true) == Words(more, Single, word + ['\''], true);
  }

  lemma OpeningQuote(body: string)
    ensures Words("'" + body, Plain, "", false) == Words(body, Single, "", true)
  {
    assert ("'" + body)[1..] == body;
  }

  lemma TokenSplits(t: string, rest: string)
    ensures Words(Quote(t) + rest, Plain, "", false) == Words(rest, Plain, t, t != "")
  {
    if NeedsQuotes(t) {
      var body := Escape(t) + "'" + rest;
      assert Quote(t) + rest == "'" + body;
      OpeningQuote(body);
      QuotedToken(t, rest, "");
      assert "" + t == t;
    } else {
      PlainToken(t, rest, "", false);
      assert "" + t == t;
    }
  }

  function NonEmpty(argv: seq<string>): seq<string> {
    if argv == [] then []
    else (if argv[0] == "" then [] else [argv[0]]) + NonEmpty(argv[1..])
  }

  lemma {:induction false} SpacedSplits(argv: seq<string>, word: string, begun: bool)
    ensures Words(Spaced(argv), Plain, word, begun) == (if begun then [word] else []) + NonEmpty(argv)
  {
    if argv != [] {
      var s := Spaced(argv);
      assert s[1..] == Quote(argv[0]) + Spaced(argv[1..]);
      TokenSplits(argv[0], Spaced(argv[1..]));
      SpacedSplits(argv[1..], argv[0], argv[0] != "");
    }
  }

  /** A rendered argv splits into its tokens, the empty ones lost. */
  lemma JoinSplits(argv: seq<string>)
    ensures SplitWords(Join(argv)) == NonEmpty(argv)
  {
    if argv != [] {
      TokenSplits(argv[0], Spaced(argv[1..]));
      SpacedSplits(argv[1..], argv[0], argv[0] != "");
    }
  }

  lemma {:induction false} NonEmptyLength(argv: seq<string>)
    ensures |NonEmpty(argv)| <= |argv|
    ensures |NonEmpty(argv)| == |argv| <==> "" !in argv
    ensures "" !in argv ==> NonEmpty(argv) == argv
  {
    if argv != [] {
      NonEmptyLength(argv[1..]);
      assert argv == [argv[0]] + argv[1..];
    }
  }

  /** The rendering is recovered exactly when no token is empty, so it is injective there. */
  lemma RecoveredExactly(argv: seq<string>)
    ensures SplitWords(Join(argv)) == argv <==> "" !in argv
  {
    JoinSplits(argv);
    NonEmptyLength(argv);
  }

  lemma JoinInjective(a: seq<string>, b: seq<string>)
    requires "" !in a && "" !in b && Join(a) == Join(b)
    ensures a == b
  {
    RecoveredExactly(a);
    RecoveredExactly(b);
  }
}
