/** The `key=value` lines in which job and checkpoint metadata are stored. */
module KeyValueText {
  import opened Outcomes
  import opened Strings
  import opened Tokens

  function Entry(key: string, value: string): string {
    key + "=" + value
  }

  /** The key is what precedes the first `=`; a key written by `Entry` has none. */
  lemma EntrySplits(key: string, value: string)
    requires '=' !in key
    ensures var e := Entry(key, value);
            Find(e, '=') == |key| && e[..|key|] == key && e[|key| + 1..] == value
  {
    var e := Entry(key, value);
    assert e[0..|key|] == key;
    FindIs(e, '=', 0, |key|);
  }

  /** The lines, folded left to right into a map: a repeated key keeps its last value. */
  function FromLines(lines: seq<string>, values: map<string, string>): Result<map<string, string>> {
    if lines == [] then Ok(values)
    else
      var d := Find(lines[0], '=');
      if d == |lines[0]| then Err("invalid key-value line")
      else FromLines(lines[1..], values[lines[0][..d] := lines[0][d + 1..]])
  }

  function Parse(text: string): Result<map<string, string>> {
    FromLines(Split(text, '\n'), map[])
  }

  /** The values once one more line is read; an empty line changes nothing. */
  function AddLine(line: string, values: map<string, string>): Result<map<string, string>> {
    if line == "" then Ok(values)
    else
      var d := Find(line, '=');
      if d == |line| then Err("invalid key-value line")
      else Ok(values[line[..d] := line[d + 1..]])
  }

  /** What is still to be read at `cursor`, given the values read so far. */
  function Remaining(text: string, cursor: nat, values: map<string, string>): Result<map<string, string>>
    requires cursor <= |text|
  {
    FromLines(Split(text[cursor..], '\n'), values)
  }

  lemma RemainingStep(text: string, cursor: nat, values: map<string, string>)
    requires cursor < |text|
    ensures var end := Find(text, '\n', cursor);
            Remaining(text, cursor, values) ==
            match AddLine(text[cursor..end], values)
            case Err(e) => Err(e)
            case Ok(more) => Remaining(text, Next(text, end), more)
  {
    SplitStep(text, '\n', cursor);
    var end := Find(text, '\n', cursor);
    OneLineMore(text[cursor..end], Split(text[Next(text, end)..], '\n'), values);
  }

  lemma OneLineMore(line: string, rest: seq<string>, values: map<string, string>)
    ensures FromLines((if line == "" then [] else [line]) + rest, values) ==
            if AddLine(line, values).Ok? then FromLines(rest, AddLine(line, values).value) else AddLine(line, values)
  {
    if line == "" {
      assert [] + rest == rest;
    } else {
      assert ([line] + rest)[1..] == rest;
    }
  }

  method ParseKeyValueText(text: string) returns (r: Result<map<string, string>>)
    ensures r == Parse(text)
  {
    var values: map<string, string> := map[];
    var cursor := 0;
    assert text[0..] == text;
    while cursor < |text|
      invariant cursor <= |text|
      invariant Remaining(text, cursor, values) == Parse(text)
    {
      RemainingStep(text, cursor, values);
      var end := Find(text, '\n', cursor);
      var line := text[cursor..end];
      cursor := Next(text, end);
      if line == "" {
        continue;
      }
      var delimiter := Find(line, '=');
      if delimiter == |line| {
        return Err("invalid key-value line");
      }
      values := values[line[..delimiter] := line[delimiter + 1..]];
    }
    return Ok(values);
  }

  // ---- Serialising --------------------------------------------------------------

  predicate KeyClean(key: string) {
    '=' !in key && '\n' !in key
  }

  predicate LineFree(value: string) {
    '\n' !in value
  }

  predicate Clean(key: string, value: string) {
    KeyClean(key) && LineFree(value)
  }

  /** What the serialiser accepts. */
  predicate Serializable(values: map<string, string>) {
    forall k :: k in values ==> Clean(k, values[k])
  }

  ghost function Min(keys: set<string>): (least: string)
    requires keys != {}
    ensures least in keys && forall k :: k in keys ==> k == least || Less(least, k)
  {
    HasMin(keys);
    var least :| least in keys && forall k :: k in keys ==> k == least || Less(least, k);
    least
  }

  lemma HasMin(keys: set<string>)
    requires keys != {}
    ensures exists least :: least in keys && forall k :: k in keys ==> k == least || Less(least, k)
  {
    var least := MinExists(keys);
  }

  /** `std::map` iteration order. */
  ghost function InOrder(keys: set<string>): (s: seq<string>)
    ensures forall k :: k in s <==> k in keys
  {
    if keys == {} then [] else [Min(keys)] + InOrder(keys - {Min(keys)})
  }

  /** The iteration is in strictly ascending byte order, so every key comes once. */
  lemma {:induction false} InOrderAscends(keys: set<string>, i: nat, j: nat)
    requires i < j < |InOrder(keys)|
    ensures Precedes(InOrder(keys)[i], InOrder(keys)[j])
  {
    var rest := InOrder(keys - {Min(keys)});
    if i > 0 {
      InOrderAscends(keys - {Min(keys)}, i - 1, j - 1);
    } else {
      assert InOrder(keys)[j] == rest[j - 1] && rest[j - 1] in keys - {Min(keys)};
      LessExactly(Min(keys), rest[j - 1]);
    }
  }

  ghost function Lines(values: map<string, string>, keys: seq<string>): (lines: seq<string>)
    requires forall k :: k in keys ==> k in values
    ensures |lines| == |keys|
    ensures forall i :: 0 <= i < |keys| ==> lines[i] == Entry(keys[i], values[keys[i]])
  {
    if keys == [] then [] else [Entry(keys[0], values[keys[0]])] + Lines(values, keys[1..])
  }

  /** The lines for `keys`, one newline each. */
  ghost function TextOf(values: map<string, string>, keys: set<string>): string
    requires keys <= values.Keys
  {
    Terminated(Lines(values, InOrder(keys)), '\n')
  }

  ghost function Text(values: map<string, string>): string {
    TextOf(values, values.Keys)
  }

  lemma TextStep(values: map<string, string>, keys: set<string>, key: string)
    requires keys <= values.Keys && key in keys
    requires forall k :: k in keys ==> k == key || Less(key, k)
    ensures TextOf(values, keys) == key + "=" + values[key] + "\n" + TextOf(values, keys - {key})
  {
    if Min(keys) != key {
      LessTransitive(key, Min(keys), key);
      LessIrreflexive(key);
    }
    var lines, rest := Lines(values, InOrder(keys)), InOrder(keys - {key});
    assert InOrder(keys)[1..] == rest;
    assert lines[1..] == Lines(values, rest);
  }

  /** The first key in iteration order. */
  method Begin(keys: set<string>) returns (key: string)
    requires keys != {}
    ensures key in keys && forall k :: k in keys ==> k == key || Less(key, k)
  {
    HasMin(keys);
    key :| key in keys && forall k :: k in keys ==> k == key || Less(key, k);
  }

  method SerializeKeyValueMap(values: map<string, string>) returns (r: Result<string>)
    ensures r.Ok? <==> Serializable(values)
    ensures r.Ok? ==> r.value == Text(values)
  {
    var output := "";
    var keys := values.Keys;
    while keys != {}
      invariant keys <= values.Keys
      invariant Serializable(values) <==> forall k :: k in keys ==> Clean(k, values[k])
      invariant output + TextOf(values, keys) == Text(values)
      decreases |keys|
    {
      var key := Begin(keys);
      var value := values[key];
      if !Clean(key, value) {
        return Err("invalid key/value content");
      }
      var line := key + "=" + value + "\n";
      TextStep(values, keys, key);
      ConcatAssociative(output, line, TextOf(values, keys - {key}));
      output := output + line;
      keys := keys - {key};
    }
    r := Ok(output);
  }

  // ---- Reading back ----------------------------------------------------------------

  ghost function Picked(values: map<string, string>, keys: seq<string>, acc: map<string, string>): map<string, string>
    requires forall k :: k in keys ==> k in values
  {
    map k | k in acc.Keys + (set j | j in keys) :: if k in keys then values[k] else acc[k]
  }

  lemma {:induction false} FromWrittenLines(values: map<string, string>, keys: seq<string>, acc: map<string, string>)
    requires Serializable(values) && forall k :: k in keys ==> k in values
    ensures FromLines(Lines(values, keys), acc) == Ok(Picked(values, keys, acc))
  {
    if keys == [] {
      assert Picked(values, keys, acc) == acc;
    } else {
      var first, rest := keys[0], keys[1..];
      EntrySplits(first, values[first]);
      FromWrittenLines(values, rest, acc[first := values[first]]);
      PickedStep(values, keys, acc);
    }
  }

  lemma PickedStep(values: map<string, string>, keys: seq<string>, acc: map<string, string>)
    requires keys != [] && forall k :: k in keys ==> k in values
    ensures Picked(values, keys[1..], acc[keys[0] := values[keys[0]]]) == Picked(values, keys, acc)
  {
    assert keys == [keys[0]] + keys[1..];
  }

  lemma LinesAreTokens(values: map<string, string>, keys: seq<string>)
    requires Serializable(values) && forall k :: k in keys ==> k in values
    ensures AllTokens(Lines(values, keys), '\n')
  {
    forall i | 0 <= i < |keys| ensures IsToken(Lines(values, keys)[i], '\n') {
      assert keys[i] in keys;
      assert Clean(keys[i], values[keys[i]]);
    }
  }

  /** Every map the serialiser accepts parses back to itself. */
  lemma RoundTrip(values: map<string, string>)
    requires Serializable(values)
    ensures Parse(Text(values)) == Ok(values)
  {
    var keys := InOrder(values.Keys);
    LinesAreTokens(values, keys);
    SplitTerminated(Lines(values, keys), '\n');
    FromWrittenLines(values, keys, map[]);
    PickedAll(values, keys);
  }

  lemma PickedAll(values: map<string, string>, keys: seq<string>)
    requires forall k :: k in keys <==> k in values
    ensures Picked(values, keys, map[]) == values
  {}

  /** Whatever was read can be written again. */
  lemma {:induction false} ReadIsSerializable(lines: seq<string>, values: map<string, string>)
    requires AllTokens(lines, '\n') && Serializable(values) && FromLines(lines, values).Ok?
    ensures Serializable(FromLines(lines, values).value)
  {
    if lines != [] {
      var d := Find(lines[0], '=');
      EntryClean(lines[0], d);
      ReadIsSerializable(lines[1..], values[lines[0][..d] := lines[0][d + 1..]]);
    }
  }

  lemma EntryClean(line: string, d: nat)
    requires IsToken(line, '\n') && d == Find(line, '=') && d < |line|
    ensures Clean(line[..d], line[d + 1..])
  {
    var key, value := line[..d], line[d + 1..];
    assert forall i :: 0 <= i < |key| ==> key[i] == line[i];
    assert forall i :: 0 <= i < |value| ==> value[i] == line[d + 1 + i];
  }
}
