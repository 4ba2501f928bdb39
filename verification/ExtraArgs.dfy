/** The allowlist for CRIU arguments that a request may pass through. */
module ExtraArgs {
  import opened Outcomes
  import opened Strings

  /** A token allowed on its own. */
  predicate IsFlag(token: string) {
    || token == "--link-remap" || token == "--tcp-established" || token == "--tcp-close" || token == "--file-locks"
    || StartsWith(token, "--ghost-limit=")
  }

  /** A token that must be followed by a value, and a value it admits. */
  predicate IsPair(token: string, value: string) {
    || token == "--ghost-limit"
    || (token == "--external" && StartsWith(value, "tty["))
    || (token == "--inherit-fd" && StartsWith(value, "fd["))
  }

  lemma PairIsNoFlag(token: string, value: string)
    requires IsPair(token, value)
    ensures !IsFlag(token)
  {
    assert |token| < |"--ghost-limit="|;
  }

  // ---- The grammar ---------------------------------------------------------------------

  /** One allowed item: a flag, or a pair. */
  predicate IsItem(item: seq<string>) {
    || (|item| == 1 && IsFlag(item[0]))
    || (|item| == 2 && IsPair(item[0], item[1]))
  }

  function Flatten(items: seq<seq<string>>): seq<string> {
    if items == [] then [] else items[0] + Flatten(items[1..])
  }

  predicate AllItems(items: seq<seq<string>>) {
    forall i :: 0 <= i < |items| ==> IsItem(items[i])
  }

  /** Some list of allowed items, one after another. */
  ghost predicate Grammatical(args: seq<string>) {
    exists items :: AllItems(items) && Flatten(items) == args
  }

  // ---- The validator ----------------------------------------------------------------------

  /** What the loop accepts, reading left to right. */
  predicate Accepts(args: seq<string>) {
    if args == [] then true
    else if IsFlag(args[0]) then Accepts(args[1..])
    else |args| >= 2 && IsPair(args[0], args[1]) && Accepts(args[2..])
  }

  method ValidateExtraArgs(args: seq<string>) returns (r: Result<seq<string>>)
    ensures r.Ok? <==> Accepts(args)
    ensures r.Ok? ==> r.value == args
  {
    var validated: seq<string> := [];
    var index := 0;
    assert args[0..] == args;
    while index < |args|
      invariant index <= |args| && validated == args[..index]
      invariant Accepts(args[index..]) <==> Accepts(args)
    {
      var token := args[index];
      assert args[index..][1..] == args[index + 1..];
      if IsFlag(token) {
        validated := validated + [token];
        index := index + 1;
        continue;
      }
      if token == "--ghost-limit" && index + 1 >= |args| {
        return Err("snapshotd ghost-limit flag requires a value");
      }
      if token == "--external" && (index + 1 >= |args| || !StartsWith(args[index + 1], "tty[")) {
        return Err("invalid snapshotd external tty argument");
      }
      if token == "--inherit-fd" && (index + 1 >= |args| || !StartsWith(args[index + 1], "fd[")) {
        return Err("invalid snapshotd inherit-fd argument");
      }
      if token != "--ghost-limit" && token != "--external" && token != "--inherit-fd" {
        return Err("unsafe CRIU argument for snapshotd request");
      }
      assert args[index..][2..] == args[index + 2..];
      validated := validated + [token, args[index + 1]];
      index := index + 2;
    }
    r := Ok(validated);
  }

  lemma {:induction false} AcceptedIsGrammatical(args: seq<string>)
    requires Accepts(args)
    ensures Grammatical(args)
  {
    if args == [] {
      assert AllItems([]) && Flatten([]) == args;
    } else {
      var n := if IsFlag(args[0]) then 1 else 2;
      AcceptedIsGrammatical(args[n..]);
      var items :| AllItems(items) && Flatten(items) == args[n..];
      var more := [args[..n]] + items;
      assert more[1..] == items && Flatten(more) == args[..n] + args[n..] == args;
    }
  }

  lemma {:induction false} ItemsAccepted(items: seq<seq<string>>)
    requires AllItems(items)
    ensures Accepts(Flatten(items))
  {
    if items != [] {
      ItemsAccepted(items[1..]);
      var item, rest := items[0], Flatten(items[1..]);
      assert IsItem(item);
      assert (item + rest)[|item|..] == rest;
      if |item| == 2 {
        PairIsNoFlag(item[0], item[1]);
      }
    }
  }

  /** The validator accepts exactly the grammar. */
  lemma AcceptsExactly(args: seq<string>)
    ensures Accepts(args) <==> Grammatical(args)
  {
    if Accepts(args) {
      AcceptedIsGrammatical(args);
    }
    if Grammatical(args) {
      var items :| AllItems(items) && Flatten(items) == args;
      ItemsAccepted(items);
    }
  }

  // ---- What CRIU takes for options -------------------------------------------------------

  /** The tokens read as options: a pair's second token is a value, whatever it looks like. */
  function Heads(args: seq<string>): seq<string> {
    if args == [] then []
    else if IsFlag(args[0]) || |args| == 1 then [args[0]] + Heads(args[1..])
    else [args[0]] + Heads(args[2..])
  }

  function Firsts(items: seq<seq<string>>): seq<string>
    requires AllItems(items)
  {
    if items == [] then []
    else
      assert IsItem(items[0]);
      [items[0][0]] + Firsts(items[1..])
  }

  /** However a list is cut into allowed items, the options are the items' first tokens. */
  lemma {:induction false} HeadsAreFirsts(items: seq<seq<string>>)
    requires AllItems(items)
    ensures Heads(Flatten(items)) == Firsts(items)
  {
    if items != [] {
      HeadsAreFirsts(items[1..]);
      var item, rest := items[0], Flatten(items[1..]);
      assert IsItem(item);
      assert (item + rest)[|item|..] == rest;
      if |item| == 2 {
        PairIsNoFlag(item[0], item[1]);
      }
    }
  }

  // ---- The allowlist, spelled out ---------------------------------------------------------

  /** Whatever is accepted, CRIU reads no other options than these. */
  lemma {:induction false} OptionsAllowed(args: seq<string>, option: string)
    requires Accepts(args) && option in Heads(args)
    ensures || option in {"--link-remap", "--tcp-established", "--tcp-close", "--file-locks"}
            || option in {"--ghost-limit", "--external", "--inherit-fd"}
            || (|option| >= 14 && option[..14] == "--ghost-limit=")
  {
    if option != args[0] {
      OptionsAllowed(args[if IsFlag(args[0]) then 1 else 2..], option);
    }
  }

  /** And each of them may be given: four alone, a ghost limit either way, the other two for ttys and descriptors. */
  lemma EachAllowed(token: string, value: string)
    ensures Accepts([token]) <==>
            || token == "--link-remap" || token == "--tcp-established" || token == "--tcp-close"
            || token == "--file-locks" || (|token| >= 14 && token[..14] == "--ghost-limit=")
    ensures Accepts(["--ghost-limit", value])
    ensures Accepts(["--external", value]) <==> |value| >= 4 && value[..4] == "tty["
    ensures Accepts(["--inherit-fd", value]) <==> |value| >= 3 && value[..3] == "fd["
  {
    Single(token);
    Paired("--ghost-limit", value);
    Paired("--external", value);
    Paired("--inherit-fd", value);
    assert "--ghost-limit"[2] == 'g' && "--external"[2] == 'e' && "--inherit-fd"[2] == 'i';
  }

  lemma Single(token: string)
    ensures Accepts([token]) <==> IsFlag(token)
  {
    assert [token][1..] == [];
  }

  lemma Paired(token: string, value: string)
    requires token == "--ghost-limit" || token == "--external" || token == "--inherit-fd"
    ensures Accepts([token, value]) <==> IsPair(token, value)
  {
    PairTokensAreNoFlags(token);
    assert [token, value][2..] == [];
  }

  lemma PairTokensAreNoFlags(token: string)
    requires token == "--ghost-limit" || token == "--external" || token == "--inherit-fd"
    ensures !IsFlag(token)
  {
    assert |"--ghost-limit"| == 13 && |"--external"| == 10 && |"--inherit-fd"| == 12 && |"--ghost-limit="| == 14;
    assert "--ghost-limit"[2] == 'g' && "--external"[2] == 'e' && "--inherit-fd"[2] == 'i';
    assert "--link-remap"[2] == 'l' && "--tcp-established"[2] == 't' && "--tcp-close"[2] == 't';
    assert "--file-locks"[2] == 'f';
  }
}
